# hostgo client, modelled in Dafny

`hostgo` is the command-line client of a small hosting service. It signs a user in, keeps
the credentials in `~/.hostgo/.auth.json`, and records the current project's app name in
`hostgo.yml`. Its commands create apps, deploy docker images, scale and list
instances, roll back releases, manage resources and domains, dump databases, and list, set
and unset environment variables. `hostgo/apps.go` also defines `deployApp`, which builds
the project and uploads the binary; nothing in the visible source calls it, and it is
modelled like the commands. Every command talks to one JSON API. Each reply first has
to pass as an envelope `{"error": bool, "message": string}` and then fills the caller's
response object.

This project models that client. The modules follow the program's layers:

- `Wrappers`, `Strings`, `Errors`: option and result types, `strings.Split`, decimal
  formatting, and the error values the client reports. The texts of the client's own errors
  are the source's; the texts of JSON and YAML decoding errors are stand-ins (see Left out).
- `FileSystem`: the disk as a map of files, a set of directories and a set of locked paths.
  It provides `ReadFile`, `WriteFile`, `Mkdir`, `RemoveAll`, `Remove` and `Stat` as
  functions on that disk. A `FileSystem` class holds the disk and its methods update it.
- `JsonText`: JSON documents as text. `Serialize` lays a document out the way
  `json.Marshal` does for the values the client sends: no white space, and `"`, `\`,
  control characters, `<`, `>`, `&`, U+2028 and U+2029 escaped. As Go 1.22 and later do,
  backspace and form feed take the short escapes `\b` and `\f`, like `\n`, `\r` and
  `\t`; other control characters become `\u00XX`. `Parse` reads the
  syntax `json.Unmarshal` accepts, within the exceptions below.
- `GoJson`: Go's typed JSON layer. A `Shape` is a Go static type (bool, string, int, uint,
  struct with named fields, pointer, slice) and a `Value` is a Go value. The module defines
  `Marshal`/`Encode` and `Unmarshal`/`Decode` into an existing value. Decoding follows Go's
  rules: an exact key match first, then the first field whose name equals the key up to
  case, unknown keys skipped, `null` on pointers and slices, and
  slices replaced.
- `Types`: the records of `pkg/types/types.go` and their Go values.
- `AuthStore`: `defaultAuthProvider` (`CurrentAuth`, `CreateAuth`) over the disk and the
  home directory.
- `AppConfig`: reading and writing `hostgo.yml`.
- `HttpClient`: the request `Do` builds, how `Do` interprets the outcome, and a `Client`
  class whose `Do` fills a `Target` (the response object) in place. The class sends on a
  `Network` that records every request it receives.
- `DeploymentClient`: the multipart upload of a build and how its reply is read.
- `OpsApps`, `OpsAuth`: the operations of `pkg/ops`. Each sends one request and turns the
  filled reply into its result. Login also stores the returned account.
- `Cli`, `CliApps`, `CliEnvs`: the commands of `hostgo/apps.go` and `hostgo/envs.go`. Each
  command is a method of `AppCommands` or `EnvCommands`. It is proved equal to a function
  (`ScaleSpec`, `ListSpec`, ...) that gives three things as a `Ran`:
  - how the command ends: `Done`, `Exit` for `os.Exit(1)`, or `Panic` for a nil
    dereference, together with the lines it prints;
  - the requests it sends;
  - the disk afterwards.

  Lemmas about those functions state what the commands promise.

A command's output is the list of the exact texts of its print calls, without colour, so
what it writes to the terminal is their concatenation (`Strings.Concat`). `color.Red(t)`
and `color.Green(t)` with no further arguments print `t` followed by a newline unless `t`
already ends in one (`Cli.ColorLine`). Without arguments, `color` prints with `Print`, so a
server message is printed as it is and its `%` signs are not read as verbs. With arguments,
the format gets the newline and goes to `Printf`. Server behaviour is a function
`respond: Request -> Answer`, so every command is deterministic given the disk, the home
directory and the server.

Before anything is sent, `http.NewRequest` parses the URL, which is the server address
followed by an endpoint that holds app names, versions, resource names and domains as they
were given. `HttpClient.UrlError` states when Go's `url.Parse` refuses a URL. The text
before the first `#` may not hold a control character (below U+0020, or U+007F). Its path,
the part before the first `?`, may not hold a `%` that is not followed by two hex digits,
and neither may the fragment after the `#`. The query is not checked. A refused request is
never sent. `Attempt` gives the outcome of trying a request; `SentFor` gives the requests
the server receives, which is none for a refused one. The parse error reads
`parse "<url>": net/url: invalid control character in URL` or
`parse "<url>": invalid URL escape "%zz"`, with the URL quoted as `strconv.Quote` does.

The JSON text layer agrees with Go's `encoding/json` with these exceptions:

- Numbers are integers only. Fractions and exponents are not read, and none of the
  client's types holds a float.
- A `\uXXXX` escape naming a surrogate half becomes U+FFFD. Two escapes forming a surrogate
  pair are not combined.
- Text is a sequence of Unicode characters, so invalid UTF-8 does not arise.

## Model

| member | source | states |
|---|---|---|
| Strings.Split | hostgo/envs.go:76 | `strings.Split`: one part more than there are separators, no part contains the separator, and joining the parts with it gives the input back |
| Strings.SplitJoin | hostgo/envs.go:76 | splitting the join of separator-free parts gives exactly those parts (split inverts join) |
| Strings.SplitAfterSeparator | hostgo/envs.go:76 | a separator-free prefix followed by the separator splits off as the first part |
| Strings.SplitLines | hostgo/apps.go:194-198 | text made of separator-free lines, each ended by the separator, splits back into those lines and a final empty piece |
| Strings.NatText | hostgo/apps.go:353 | `%d` of a natural number is a non-empty digit string that starts with `0` only for zero |
| Strings.DigitsValueNatText | hostgo/apps.go:353 | reading the decimal text of `n` gives `n` back |
| JsonText.ParseSerialize | pkg/http/http_client.go:32-35 | parsing a serialized document gives the same document |
| JsonText.ParseValueSerialize | pkg/http/http_client.go:55-69 | parsing stops exactly after a serialized value when text follows that starts at a token boundary |
| JsonText.ParseIntText | pkg/http/http_client.go:55-69 | an integer written by the serializer, negative or not, reads back as the same integer |
| GoJson.Zero | pkg/http/http_client.go:55 | the zero value of every type conforms to that type |
| GoJson.Unmarshal | pkg/http/http_client.go:55-69 | a successful read into a value of a type yields a value of the same type |
| GoJson.FieldIndexSpec | hostgo/apps.go:347-350 | a key selects a struct field whose name equals it up to case (ASCII letters, and the Kelvin sign and long s that fold to `k` and `s`); a field with exactly that name wins; there is no field exactly when no name folds to the key |
| GoJson.FoldSpecialLetters | hostgo/apps.go:347-350 | keys spelled with U+212A or U+017F select the fields named with `K` or `S`, and keys of another length or letter select nothing |
| GoJson.FoldSelects | hostgo/apps.go:382-391 | with no exact match, the first field whose name folds to the key is selected (`error` fills `Error`, `data` fills `Data`) |
| GoJson.UnmarshalMarshal | pkg/http/http_client.go:32-35 | reading the JSON of a value into any value of the same well-formed type gives the original value |
| GoJson.DecodeEncode | pkg/http/http_client.go:66-69 | the same round trip through text: `Decode(shape, Encode(v, shape), cur) == Success(v)` |
| GoJson.DecodeReads | pkg/http/http_client.go:55-62 | a struct whose fields are a prefix of the sender's reads exactly that prefix of the sent values, which is how the envelope is read from a full reply |
| GoJson.UnmarshalUnknownMembers | pkg/http/http_client.go:55-62 | members whose keys match no field leave the struct unchanged |
| Types.AccountValueOf | pkg/types/types.go:3-9 | `Account` and its Go values correspond one to one |
| Types.AppValueOf | pkg/types/types.go:11-15 | `App` and its Go values correspond one to one |
| Types.DeploymentResultValueOf | pkg/types/types.go:21-28 | `DeploymentResult` and its Go values correspond one to one |
| FileSystem.JoinSeparators | pkg/auth/auth.go:40 | `filepath.Join` puts one separator between a directory and a name, drops the separators the directory ends with (the root `/` included), and ends with the name |
| FileSystem.WriteThenRead | pkg/auth/auth.go:73-76 | after a successful write, reading the file gives the data written and every other file reads as before |
| FileSystem.WriteFails | pkg/auth/auth.go:73-76 | a write fails exactly on a directory or a locked path, and a failed write changes nothing |
| FileSystem.RemoveAllClears | pkg/auth/auth.go:61-65 | `RemoveAll` fails exactly when a locked path at or below it exists; on success nothing is left below it, everything else stays and no file changes content, and on failure the disk is unchanged |
| FileSystem.MkdirAdds | pkg/auth/auth.go:66-68 | `Mkdir` succeeds exactly when its parent directory exists (or the path has none), nothing exists at the path and it is not locked; a parent that is a file gives "not a directory" and a missing parent "no such file or directory"; success adds just that directory; on failure the disk is unchanged |
| FileSystem.ParentOfName | pkg/auth/auth.go:60 | appending a name without a separator does not change which directory an entry is made in |
| FileSystem.JoinParent | pkg/auth/auth.go:60 | the entry `filepath.Join(dir, name)` is made in `dir`, without the separators it ends with |
| FileSystem.StepsKeepValid | pkg/auth/auth.go:61-76 | every disk operation keeps files and directories disjoint |
| FileSystem.FileSystem.ReadFile | pkg/auth/auth.go:41-44 | returns what `ReadFileSpec` gives on the current disk |
| FileSystem.FileSystem.WriteFile | pkg/auth/auth.go:73-76 | the new disk and the error are `WriteFileSpec` of the old disk |
| FileSystem.FileSystem.Mkdir | pkg/auth/auth.go:66-68 | the new disk and the error are `MkdirSpec` of the old disk |
| FileSystem.FileSystem.RemoveAll | pkg/auth/auth.go:61-65 | the new disk and the error are `RemoveAllSpec` of the old disk |
| FileSystem.FileSystem.Remove | hostgo/apps.go:270 | the new disk and the error are `RemoveSpec` of the old disk |
| FileSystem.FileSystem.Stat | pkg/auth/auth.go:61 | reports whether anything exists at the path |
| AuthStore.AccountPtr | pkg/auth/auth.go:52 | the `*types.Account` handed to `CreateAuth`, nil or not, is a value of pointer-to-account type |
| AuthStore.NoHomeDirCases | pkg/auth/auth.go:33-39 | there is no home directory exactly when `homedir.Dir` fails and `HOME_DIR` is empty; then loading fails with the no-home error and saving fails with it and changes nothing |
| AuthStore.LoadAuthErrors | pkg/auth/auth.go:40-48 | the only load error once the home is known is "not authenticated", and it happens exactly when the file is missing or does not decode as an account |
| AuthStore.SaveAuthErrors | pkg/auth/auth.go:53-76 | a save fails only for a missing home directory or with an "authentication failed" error wrapping the disk error |
| AuthStore.SaveAuthLayout | pkg/auth/auth.go:60-76 | after a save the folder `~/.hostgo` exists holding just `.auth.json` with the account's JSON; nothing outside the folder appears, disappears or changes |
| AuthStore.SaveAuthMissingHome | pkg/auth/auth.go:60-68 | when the home directory does not exist, `os.Mkdir` of `~/.hostgo` fails with "no such file or directory", and saving returns that error wrapped as an authentication failure, changing nothing |
| AuthStore.SaveAuthWrites | pkg/auth/auth.go:69-76 | after a save `.auth.json` holds the account's JSON |
| AuthStore.AuthTextDecodes | pkg/auth/auth.go:45-48 | the stored text decodes to the account, and a nil account (`null`) decodes to the zero account |
| AuthStore.SaveThenLoad | pkg/auth/auth.go:32-78 | after a successful `CreateAuth(a)`, `CurrentAuth` returns `a`, or the zero account for nil |
| AuthStore.AuthProvider.CurrentAuth | pkg/auth/auth.go:32-50 | returns `LoadAuth` of the current disk and environment |
| AuthStore.AuthProvider.CreateAuth | pkg/auth/auth.go:52-78 | the new disk and the error are `SaveAuth` of the old disk |
| AppConfig.UnescapeEscape | hostgo/apps.go:307 | the scalar escape is undone by the reader |
| AppConfig.ParseConfigText | hostgo/apps.go:307-325 | reading the text written for a config gives the same config |
| AppConfig.ParseConfigEdges | hostgo/apps.go:325 | an empty file is a config with an empty app name, and the stand-in YAML reader refuses a non-empty text that does not start with the `app_name` key |
| AppConfig.WriteThenReadConfig | hostgo/apps.go:298-329 | after `createAppConfigFile(name)` succeeds, `readAppConfig` returns `name` |
| AppConfig.ReadAppConfig | hostgo/apps.go:314-329 | returns `ReadConfigSpec`: a read error as an OS error, a text that is not a config as a config error, else the config |
| AppConfig.CreateAppConfigFile | hostgo/apps.go:298-312 | the new disk and the error are `WriteConfigSpec` of the old disk |
| HttpClient.Network.Send | pkg/http/http_client.go:43-46 | the request is appended to the received ones and the outcome is the server's answer to it |
| HttpClient.PayloadTextDecodes | pkg/http/http_client.go:32-35 | a nil payload is sent as `null`; a typed payload's body decodes to the same value |
| HttpClient.AuthHeaders | pkg/http/http_client.go:40-42 | the token header is present exactly when there is an account, it carries the account's token, and no other header is set |
| HttpClient.RequestFor | pkg/http/http_client.go:31-42 | the request goes to the server URL plus the endpoint with the verb, the token header if signed in, and the payload's JSON as body |
| HttpClient.Interpret | pkg/http/http_client.go:43-69 | the response object keeps its type, and on any error it is left as it was |
| HttpClient.TransportFirst | pkg/http/http_client.go:36-54 | a request refused by `http.NewRequest` returns the parse error and leaves the object as it was; no response, or an unreadable body, is a transport error before anything is parsed |
| HttpClient.NoPercentNoBadEscape | pkg/http/http_client.go:36 | a text without `%` has no bad escape |
| HttpClient.GoodEscapeSkipped | pkg/http/http_client.go:36 | a `%` followed by two hex digits is a good escape, and the search for a bad one goes on after it |
| HttpClient.PlainUrlAccepted | pkg/http/http_client.go:36 | a URL with no control character and no `%` is accepted by `http.NewRequest` |
| HttpClient.PlainEndpointAccepted | pkg/http/http_client.go:31-36 | the server URL followed by an endpoint with no control character and no `%` is accepted |
| HttpClient.CtlRefused | pkg/http/http_client.go:36-39 | a URL with a control character before its first `#` is refused with `invalid control character in URL`, the quoted URL being the text before the `#` |
| HttpClient.MalformedEnvelope | pkg/http/http_client.go:55-58 | a body that is not an envelope is a decode error, even with status 200 |
| HttpClient.RejectedReply | pkg/http/http_client.go:63-65 | a non-200 status or a set `error` flag returns the server's message as the error |
| HttpClient.AcceptedReply | pkg/http/http_client.go:43-70 | `Do` succeeds exactly when the status is 200, the envelope decodes with `error` false, and the body decodes into the object; then the object is that decoding |
| HttpClient.ServerReply | pkg/http/http_client.go:55-69 | for a reply encoded from a struct: accepted with the fields the object has when status is 200 and the flag is clear, else rejected with its message |
| HttpClient.ServerReplyWhole | pkg/http/http_client.go:55-69 | the same when the object has all the reply's fields: it is filled whole, or left at zero with the message as error |
| HttpClient.InterpretRaw | pkg/ops/apps.go:160-165 | a raw call succeeds exactly on status 200 with the body, else reports the status or the transport error |
| HttpClient.Client.Do | pkg/http/http_client.go:30-70 | the server receives `RequestFor(...)` unless `http.NewRequest` refuses its URL, in which case nothing is sent; the error and the new object are `Interpret` of that attempt and the old object |
| HttpClient.Client.DoRaw | pkg/ops/apps.go:160-162 | the server receives one request with no payload unless its URL is refused; the result is `InterpretRaw` of the attempt |
| DeploymentClient.UploadRequest | pkg/http/deployment_client.go:38-66 | the upload is a POST to `/apps/deploy` with the token if signed in, a multipart content type carrying the boundary, and two parts: `app_name` and the file `bin` with the binary's content |
| DeploymentClient.InterpretDeploy | pkg/http/deployment_client.go:67-81 | the result stays a deployment result whatever the outcome |
| DeploymentClient.DeployOutcome | pkg/http/deployment_client.go:67-81 | a transport error comes first; a body that does not decode is an error; otherwise the body fills the result and the upload succeeds exactly on status 200 |
| DeploymentClient.DeployReply | pkg/http/deployment_client.go:75-80 | a reply encoded from a result fills it, and a non-200 status returns its message as the error |
| DeploymentClient.DeployIgnoresErrorFlag | pkg/http/deployment_client.go:75-81 | unlike `Do`, the upload accepts a 200 reply whose `error` flag is set |
| DeploymentClient.UploadAccepted | pkg/http/deployment_client.go:57-61 | the upload's URL, the server address and `/apps/deploy`, is always accepted by `http.NewRequest` |
| DeploymentClient.DeploymentClient.DeployApp | pkg/http/deployment_client.go:37-82 | an unreadable binary is an OS error and sends nothing; otherwise the one request sent is `UploadRequest` and the error and the result are `InterpretDeploy` of the answer |
| OpsApps.Call | pkg/ops/apps.go:31-35 | a successful call yields a value of the reply's type |
| OpsApps.ReplyData | pkg/ops/apps.go:36 | the `data` field of a reply has the declared data type |
| OpsApps.ClientErrorsPropagate | pkg/ops/apps.go:93-96 | an error from the client is returned unchanged by the envelope-only operations whatever the reply's data type |
| OpsApps.CallErrors | pkg/ops/apps.go:32-35 | an error from the client is returned unchanged by every operation with data |
| OpsApps.DataDecodeFailure | pkg/http/http_client.go:66-69 | a 200 reply whose envelope is sound and clear but whose body does not decode into the full reply fails with that decoding error |
| OpsApps.CallFailuresAreResults | pkg/ops/apps.go:32-35 | every operation fails exactly when its call fails, with the call's error, so a data decoding error is returned like a client error |
| OpsApps.DataReply | pkg/ops/apps.go:26-36 | a reply is rejected with its message on non-200 or a set flag, else read whole |
| OpsApps.EnvelopeReply | pkg/ops/apps.go:88-99 | a data reply read as a bare envelope is rejected with its message or gives back the flag and the message |
| OpsApps.CallReplyAll | pkg/ops/apps.go:31-36 | a reply read into a struct of its own fields is rejected with its message or read whole |
| OpsApps.CallReply | pkg/ops/apps.go:31-36 | a reply read into a prefix of its fields is rejected with its message or read up to that prefix |
| OpsApps.CreateNewAppReply | pkg/ops/apps.go:21-37 | `CreateNewApp` returns the app the server sent, or nil for `null`, and the message on rejection |
| OpsApps.ReadLogsReply | pkg/ops/apps.go:39-53 | `ReadLogs` returns `data.logs`, or the message on rejection |
| OpsApps.RollbackReply | pkg/ops/apps.go:55-70 | `RollbackDeployment` returns the message, ` \| ` and the version |
| OpsApps.ProvisionReply | pkg/ops/apps.go:72-86 | `ProvisionResource` returns the message, ` \| ` and the resource id |
| OpsApps.DockerDeployReply | pkg/ops/apps.go:101-121 | `DockerDeploy` returns the address, ` \| ` and the version |
| OpsApps.EnvelopeOnlyReplies | pkg/ops/apps.go:88-157 | `DeleteResource` returns the message, and `AddDomain`/`RemoveDomain` their fixed texts, on any data; the message on rejection |
| OpsApps.DumpWrites | pkg/ops/apps.go:159-172 | a failed raw call writes nothing; on success the body is in `<app>-<res>.sql`, every other file is as before, and the result names the destination |
| OpsApps.AppsOp.CreateNewApp | pkg/ops/apps.go:21-37 | attempts one POST to `/me/apps` with `{"name"}`, received unless its URL is refused, and returns `CreateNewAppResult` of the attempt |
| OpsApps.AppsOp.ReadLogs | pkg/ops/apps.go:39-53 | attempts one GET to `/apps/logs/<app>`, received unless its URL is refused, and returns `ReadLogsResult` of the attempt |
| OpsApps.AppsOp.RollbackDeployment | pkg/ops/apps.go:55-70 | attempts one PUT to the rollback endpoint, received unless its URL is refused, and returns `RollbackResult` of the attempt |
| OpsApps.AppsOp.ProvisionResource | pkg/ops/apps.go:72-86 | attempts one POST to the resource endpoint, received unless its URL is refused, and returns `ProvisionResult` of the attempt |
| OpsApps.AppsOp.DeleteResource | pkg/ops/apps.go:88-99 | attempts one DELETE to the resource endpoint, received unless its URL is refused, and returns `DeleteResourceResult` of the attempt |
| OpsApps.AppsOp.DockerDeploy | pkg/ops/apps.go:101-121 | attempts one POST with the app and image, received unless its URL is refused, and returns `DockerDeployResult` of the attempt |
| OpsApps.AppsOp.AddDomain | pkg/ops/apps.go:123-139 | attempts one POST with the app and domain, received unless its URL is refused, and returns `DomainResult` of the attempt |
| OpsApps.AppsOp.RemoveDomain | pkg/ops/apps.go:141-157 | attempts one DELETE with the app and domain, received unless its URL is refused, and returns `DomainResult` of the attempt |
| OpsApps.AppsOp.DumpDatabase | pkg/ops/apps.go:159-172 | attempts one raw GET to the dump endpoint, received unless its URL is refused; the result and the new disk are `DumpSpec` of the attempt and the old disk |
| OpsAuth.LoginPayload | pkg/ops/auth.go:19-22 | the login payload is a value of its type |
| OpsAuth.LoginRequestSent | pkg/ops/auth.go:19-33 | login POSTs to `/account/authenticate` a body that decodes to the email and the password, and its URL is always accepted |
| OpsAuth.ClientErrorStoresNothing | pkg/ops/auth.go:30-33 | a client error is returned and the disk is untouched |
| OpsAuth.StoreErrorReturnsNoAccount | pkg/ops/auth.go:34-36 | when storing the account fails, that error is returned |
| OpsAuth.LoginStoresReturned | pkg/ops/auth.go:34-37 | a successful login stores the returned account, and `CurrentAuth` afterwards returns it |
| OpsAuth.LoginReply | pkg/ops/auth.go:18-38 | for a reply encoded from an account: rejected with the message, or stored, failing with the store's error or returning the account |
| OpsAuth.AuthenticateAccountOp.AuthenticateAccount | pkg/ops/auth.go:18-38 | sends exactly the login request; the result and the new disk are `LoginSpec` of the answer and the old disk |
| Cli.ConfigErrorLine | hostgo/apps.go:204 | the intended config error line is the prefix followed by exactly the error's text and a newline |
| Cli.ColorLine | hostgo/apps.go:362 | what `color.Green(t)` or `color.Red(t)` prints ends in a newline, and is `t` exactly when `t` already ends in one, else `t` and a newline |
| Cli.ColorLineIdempotent | hostgo/envs.go:142 | a text that `color` already ended with a newline is printed unchanged, as `color.Green("\noperation successful\n")` is |
| Cli.ConfigErrorLineAsWrittenDiffers | hostgo/apps.go:204 | the line as the source prints it is never the intended one: it starts with the prefix, is 17 characters longer, and has a line break and `%!(EXTRA string=` where the error text should start, the text following with a closing `)` |
| Cli.AccountSpecAccepts | hostgo/envs.go:20-25 | an account is accepted exactly when it loads and, for the env commands, has a token; a refusal prints the given line |
| Cli.LoadConfig | hostgo/apps.go:202-206 | returns `ConfigSpec` of the disk: the config, or the error line as the source prints it |
| Cli.LoadAccount | hostgo/apps.go:207-212 | returns `AccountSpec` of the disk and environment |
| CliApps.InstanceValues | hostgo/apps.go:385-390 | the instances become a slice value of the same length, element by element |
| CliApps.PsData | hostgo/apps.go:403 | the `Data` rows of a ps reply are instance values |
| CliApps.PsRowsInOrder | hostgo/apps.go:403-405 | one printed row per instance, in order, the k-th row being the k-th instance's line |
| CliApps.RowLineOf | hostgo/apps.go:404 | a row is id, name, status and start time separated by two tabs |
| CliApps.UntaggedKeys | hostgo/apps.go:347-350 | the untagged `Error` and `Message` fields are filled by the keys `error` and `message` |
| CliApps.ScaleReplyDecodes | hostgo/apps.go:347-353 | the scale reply is read whole on 200 with a clear flag, else rejected with its message |
| CliApps.ScaleReply | hostgo/apps.go:353-362 | `scale` prints `working...done` and then the message with `color.Green`; on a rejection it prints the message between two empty lines and exits |
| CliApps.PsReplyDecodes | hostgo/apps.go:382-393 | the ps reply is read whole, instances included, or rejected with its message |
| CliApps.PsReply | hostgo/apps.go:393-406 | `ps` exits with the message between two empty lines on a rejection, else prints the header, one row per instance in order, each ending in a newline, and an empty line |
| CliApps.ScaleGuard | hostgo/apps.go:55-59 | a count below 1 exits with the guard line, sends nothing and changes nothing |
| CliApps.ScaleAsks | hostgo/apps.go:353-361 | a valid count makes one GET with the account's token to `/apps/scale/<app>?replicas=<n>`; the server receives it when its URL is accepted, and otherwise nothing is sent and the parse error is printed after `working...done` |
| CliApps.ScaleEndpointReadsBack | hostgo/apps.go:353 | the replica count in the scale endpoint reads back as the number asked for |
| CliApps.MissingArgument | hostgo/apps.go:39-161 | each command missing its argument prints its line (or nothing) and sends nothing |
| CliApps.NoSessionSendsNothing | hostgo/apps.go:202-212 | without a config or an account every app command that reads them first exits with that line and sends nothing |
| CliApps.NoSessionRollbackSendsNothing | hostgo/apps.go:97-130 | `rollback`, which reads the account first, exits with the account's line or the config's and sends nothing |
| CliApps.DeployAppCleanup | hostgo/apps.go:242-270 | a failed build prints its error and changes and sends nothing, and so does a binary the disk refuses; otherwise the binary written at `<wd>/<app>` is uploaded in the one request sent; a completed deploy removes it, and a failed upload leaves it on disk with the built content |
| CliApps.UploadAlwaysSent | hostgo/apps.go:255 | the upload of a readable binary always passes `http.NewRequest` |
| CliApps.RollbackUrlRefused | hostgo/apps.go:118 | a rollback URL whose version holds a control character is refused with `invalid control character in URL` |
| CliApps.RollbackRefusesControl | hostgo/apps.go:118-124 | `rollback` with such a version sends nothing, prints the parse error and an empty line, and exits |
| CliApps.LoadingDoneLineIntended | hostgo/apps.go:436 | the evidently intended line is the loading text followed by `done` |
| CliApps.LoadingDoneDiffers | hostgo/apps.go:436 | the line as written is the loading text followed by `%!(EXTRA string=done)`, never the intended one |
| CliApps.CreatedLinesRunTogether | hostgo/apps.go:194-198 | as written, `create` prints the access URL and the git URL on one line, `access url: <url>git url: <git>` |
| CliApps.CreatedLinesSeparate | hostgo/apps.go:194-198 | the corrected `create` output has the name, the access URL and the git URL each on a line of its own |
| CliApps.CreateStoresConfig | hostgo/apps.go:181-198 | a completed create ends by printing the git URL of the created app and an empty line, and after a successful write `hostgo.yml` reads back as that app's name |
| CliApps.AppCommands.OpenSession | hostgo/apps.go:202-212 | returns `SessionSpec`: the config, then the account, each failure as its line |
| CliApps.AppCommands.InstanceRows | hostgo/apps.go:403-405 | the lines printed for the instances are `PsRows` of them |
| CliApps.AppCommands.Scale | hostgo/apps.go:331-363 | the end, the output and the requests sent are those of `ScaleSpec` |
| CliApps.AppCommands.Ps | hostgo/apps.go:365-407 | the end, the output and the requests sent are those of `PsSpec` |
| CliApps.AppCommands.DockerDeploy | hostgo/apps.go:273-296 | the end, the output and the requests sent are those of `DockerDeploySpec` |
| CliApps.AppCommands.Deploy | hostgo/apps.go:39-48 | the end, the output and the requests sent are those of `DeployCommandSpec` |
| CliApps.AppCommands.Domain | hostgo/apps.go:471-529 | the end, the output and the requests sent are those of `DomainSpec` |
| CliApps.AppCommands.Create | hostgo/apps.go:168-199 | the end, the output, the requests sent and the new disk are those of `CreateSpec` |
| CliApps.AppCommands.DeployApp | hostgo/apps.go:226-271 | the end, the output, the requests sent and the new disk are those of `DeployAppSpec` |
| CliApps.AppCommands.Upload | hostgo/apps.go:248-270 | the end, the output, the requests sent and the new disk are those of `UploadSpec` |
| CliApps.AppCommands.Rollback | hostgo/apps.go:97-130 | the end, the output and the requests sent are those of `RollbackSpec` |
| CliApps.AppCommands.ResourceAdd | hostgo/apps.go:409-438 | the end, the output and the requests sent are those of `ResourceAddSpec` |
| CliApps.AppCommands.ResourceRemove | hostgo/apps.go:440-469 | the end, the output and the requests sent are those of `ResourceRemoveSpec` |
| CliApps.AppCommands.ResourceDump | hostgo/apps.go:531-559 | the end, the output, the requests sent and the new disk are those of `ResourceDumpSpec` |
| CliApps.AppCommands.Logs | hostgo/apps.go:201-224 | the end, the output and the requests sent are those of `LogsSpec` |
| CliEnvs.GoodEnvArgIff | hostgo/envs.go:76-82 | an argument is accepted exactly when it splits on `=` into two parts; then key, `=` and value rebuild it and neither part holds `=` |
| CliEnvs.EnvArgRoundTrip | hostgo/envs.go:76-82 | `KEY=VALUE` with no `=` in either part is accepted and parsed to that key and value |
| CliEnvs.EnvArgEdges | hostgo/envs.go:76-82 | `A` and `A=B=C` are refused; `=V`, `K=` and `=` are accepted with empty parts |
| CliEnvs.EnvArgsRefused | hostgo/envs.go:77-79 | an argument without `=` and one with two are both refused |
| CliEnvs.ParseEnvsCorrect | hostgo/envs.go:73-84 | the arguments parse exactly when every one is accepted, giving one env per argument in order; otherwise the error names the first bad argument |
| CliEnvs.ParseStep | hostgo/envs.go:75-83 | one loop step: a bad argument stops with its line, a good one is prepended to the rest |
| CliEnvs.ReadEnvArgs | hostgo/envs.go:73-84 | the loop computes `ParseEnvs` of the arguments |
| CliEnvs.KeysPayload | hostgo/envs.go:134 | the keys are sent as a string slice of the same keys in order |
| CliEnvs.EnvsPayloadDecodes | hostgo/envs.go:96 | the set payload's body decodes to exactly the parsed envs |
| CliEnvs.EntryValues | hostgo/envs.go:34-37 | the entries become a slice value of the same length, element by element |
| CliEnvs.ListData | hostgo/envs.go:53 | the `Data` entries of a list reply are entry values |
| CliEnvs.EntryLinesInOrder | hostgo/envs.go:53-55 | one printed line per entry, in order |
| CliEnvs.EntryLineOf | hostgo/envs.go:54 | an entry prints as `KEY=VALUE` |
| CliEnvs.ListReplyDecodes | hostgo/envs.go:31-44 | the list reply is read whole, entries included, or rejected with its message |
| CliEnvs.ListReply | hostgo/envs.go:44-55 | `env` exits with the message between two empty lines on a rejection, else prints the total and one `KEY=VALUE` line per entry in order |
| CliEnvs.TokenRequired | hostgo/envs.go:20-25 | an account with an empty token makes `env`, `env set` and `env unset` (the same check at lines 64 and 116) exit with the auth line, sending nothing |
| CliEnvs.NoEnvSessionSendsNothing | hostgo/envs.go:20-30 | without a token-bearing account or a config, `env`, `env set` and `env unset` with keys exit with that line and send nothing |
| CliEnvs.NoArgsSendNothing | hostgo/envs.go:74 | `env set` and `env unset` without arguments print nothing and send nothing |
| CliEnvs.SetStopsOnBadArg | hostgo/envs.go:77-79 | if any argument is malformed, `set` exits and sends nothing |
| CliEnvs.SetSendsAll | hostgo/envs.go:73-96 | with well-formed arguments `set` makes one POST to `/apps/configs/<app>` whose body decodes to one env per argument, in order; the server receives it unless its URL is refused |
| CliEnvs.UnsetSendsKeys | hostgo/envs.go:113-134 | `unset` with keys makes one DELETE to `/apps/configs/unset/<app>` whose body decodes to the keys; the server receives it unless its URL is refused |
| CliEnvs.EnvCommands.OpenSession | hostgo/envs.go:20-30 | returns `EnvSessionSpec`: the account (with a token), then the config, each failure as its line |
| CliEnvs.EnvCommands.PrintEntries | hostgo/envs.go:53-55 | the lines printed for the entries are `EntryLines` of them |
| CliEnvs.EnvCommands.List | hostgo/envs.go:17-56 | the end, the output and the requests sent are those of `ListSpec` |
| CliEnvs.EnvCommands.Set | hostgo/envs.go:59-105 | the end, the output and the requests sent are those of `SetSpec` |
| CliEnvs.EnvCommands.SetArgs | hostgo/envs.go:73-105 | the end, the output and the requests sent are those of `SetArgsSpec` |
| CliEnvs.EnvCommands.PostEnvs | hostgo/envs.go:86-104 | the end, the output and the requests sent are those of `SetRequestSpec` |
| CliEnvs.EnvCommands.Unset | hostgo/envs.go:110-144 | the end, the output and the requests sent are those of `UnsetSpec` |
| CliEnvs.EnvCommands.DeleteKeys | hostgo/envs.go:125-142 | the end, the output and the requests sent are those of `UnsetRequestSpec` |

## Left out

- The transport is an outcome chosen by a deterministic server function: a missing response, an unreadable body, or a status with a body. Timeouts, retries, connection reuse and concurrency are not modelled.
- The multipart body of the upload is kept as a list of parts with its boundary. The boundary is a parameter, because Go picks it at random. The byte layout of multipart encoding is not modelled.
- `json.Marshal` cannot fail for the types the client sends, so its error return is not modelled. `http.NewRequest` is modelled only as far as it parses the URL. Its method check cannot fail, because every verb is fixed. The host is the fixed server address, so `url.Parse`'s checks on hosts and ports never fail and are not modelled.
- Go sends a request without the fragment that `url.Parse` cut off at `#`. The model's request keeps the whole URL. No endpoint holds a `#` unless a name or argument given to the client does.
- GoQuote: escapes `"`, `\`, the ASCII control characters and U+007F as `strconv.Quote` does. `strconv.Quote` also escapes non-printable characters beyond ASCII, such as U+0085 or U+2028; the model prints those as they are.
- When Go's `json.Unmarshal` meets a type mismatch, it has already filled part of the object. Here a decoding error leaves the object as it was. The client discards the object on any error, so no output depends on that part.
- The YAML codec is a stand-in that covers only what `hostgo.yml` holds. The name is written as a double-quoted scalar. The reader accepts that form, a plain scalar, or an empty file. The YAML grammar, the scalar style `yaml.Marshal` picks, comments and other keys are left out.
- JSON numbers are integers only, and surrogate pairs in `\u` escapes are not combined (see above). No value the client exchanges needs either.
- The texts of decoding errors are stand-ins: `BadConfig` prints a fixed YAML message, and JSON syntax, type and range errors print short texts in Go's style, not the exact wording of `encoding/json` or `yaml.v2`. The status error of `DoRaw`, whose definition is not visible, has a stand-in text too. Only the error's kind, and where it is returned, is modelled.
- ParseConfigEdges: holds of the stand-in reader, not of `yaml.v2`. `yaml.v2` reads a file with only other keys, a comment, or no final newline as a config (with an empty name where `app_name` is absent); the stand-in refuses them with `BadConfig`.
- FieldIndexSpec: key folding agrees with Go's only because every field name of the client is ASCII. Two non-ASCII keys that Go's Unicode folding would match to each other are not matched.
- `filepath.Join` also cleans its result: `.` and `..` elements and repeated separators inside the directory or the name are collapsed. `Join` drops only the separators a directory ends with. Working and home directories are taken to be clean apart from that, and the app name to be a single path element.
- `color.Red` and `color.Green` are modelled on the `fatih/color` release whose `printColor` adds a newline to a format that lacks one, then calls `Print` without arguments and `Printf` with them. `fatih/color` is not part of this model.
- `DoRaw` is called in `pkg/ops/apps.go` but its definition is not part of this model. It is modelled as: return the body on status 200, else report the status.
- `go build` and `git remote add` run as subprocesses. The build's result is a parameter `build: Result<string, string>`. `Success(binary)` is the content `go build -o <app>` writes at `<wd>/<app>`, and the write itself is modelled with `WriteFileSpec`. A path the disk refuses counts as a failed build, whose error is `exit status 1`. `Failure(e)` is the error `cmd.Run` returned. The compiler's own messages go to the terminal and are not modelled. The git command is taken to succeed, so its error line is never printed. `pkg/ops/docker.go` is not part of this model.
- Spinners, timing and colours are not kept. Neither is the `Operation took: <seconds>secs` line a deploy prints before its final empty line, because it depends on the clock.
- LoadingDoneLine: is exact only for a loading text without `%`. `color.WhiteString(loading, "done")` uses the text as a format, so a resource or domain name holding `%` would be read by Go as format verbs. The model prints such a name as it stands.
- `os.Getwd` is the parameter `wd` and cannot fail. The dump destination is the relative path `<app>-<res>.sql` used as a key of the disk.
- Directories have no permissions. `Mkdir` checks only the directory the new entry is made in, not the directories above it. Writing a file does not check its parent directory: a path is refused only when it is a directory or locked.
- `homedir.Dir()` is an input of the environment: a home directory or none. The `HOME_DIR` variable is its fallback.
- `hostgo/auth.go` (the interactive login prompt) and `hostgo/hostGo.go` (the cobra command tree) are not part of this model. The login operation itself is modelled in `OpsAuth`. The cobra flag parsing that turns `-i` into an `int32` is not modelled; the count is a parameter.
- The records of `pkg/types/types.go` are modelled as datatypes, with their JSON tags as field names of the corresponding shapes.

## Findings

| source | as written | input that shows it | evidently intended | confidence | as-written member | corrected member |
|---|---|---|---|---|---|---|
| hostgo/apps.go:204 (also 110, 229, 276, 334, 368, 412, 443, 474, 504, 534; hostgo/envs.go:28, 70, 122) | `color.Red("failed to read app config: ", err.Error())` passes the error as an argument to a format string that has no verb; `color` appends a newline to the format and hands it to `Printf`, which prints the prefix, the newline, and then `%!(EXTRA string=...)` | an app command run in `/app` without `hostgo.yml` would print "failed to read app config: ", a line break, and "%!(EXTRA string=open /app/hostgo.yml: no such file or directory)" | "failed to read app config: " followed by the error text | not executed | Cli.ConfigErrorLineAsWrittenDiffers | Cli.ConfigErrorLine |
| hostgo/apps.go:197 | `fmt.Printf("access url: %s", ...)` has no newline in its format | a successful `create` of app `a` with access URL `u` prints `access url: ugit url: https://git.hostgoapp.com/a.git` as one line | the access URL on a line of its own, then the git URL on the next | not executed | CliApps.CreatedLinesRunTogether | CliApps.CreatedLinesSeparate |
| hostgo/apps.go:436 (also 467, 497, 527, 557) | `fmt.Println(color.WhiteString(loading, "done"))` passes `"done"` to a format that has no verb for it, so Go prints `%!(EXTRA string=done)` after the loading text | `resource add db` would print `adding db...%!(EXTRA string=done)` | `adding db...done` | not executed | CliApps.LoadingDoneDiffers | CliApps.LoadingDoneLineIntended |

The commands print what the source prints, so they use the as-written members. `ConfigSpec`
uses `ConfigErrorLineAsWritten`, `CreateSpec` uses `CreatedLinesAsWritten`, and the resource
and domain commands use `LoadingDoneLine`. The corrected members (`ConfigErrorLine`,
`CreatedLines`, `LoadingDoneLineIntended`) carry the properties the output evidently should
have, and those properties are proved about them.
