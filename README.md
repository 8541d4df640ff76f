# NZBGet Slack notification hook, modelled in Dafny

The hook is an NZBGet post-processing script. NZBGet runs it after a download
job finishes and describes the job and the user's settings in environment
variables. The hook reads them, decides whether to post a message to a Slack
channel (via `chat.postMessage`), sends at most one message, and exits with
NZBGet's post-processing code 93 (success) or 94 (error). The code also
defines 95 (none), but no path produces it.

The model has four modules:

- `Environment` (environment.dfy): the environment as a `map<string, string>`
  and `getEnv` as a pure lookup with a default.
- `Slack` (slack.dfy): the five-field JSON body of the request, and the
  chain of early returns that turns what came back from the network into
  `Delivered` or `Failed(reason)`. The network, the HTTP client and the JSON
  decoder are abstracted into one `Response` value: the request could not be
  built, the transport failed, or a response arrived with a status code and a
  body that was unreadable, did not decode as an object, or decoded to an
  object's members.
- `Message` (message.dfy): the two-line job notification text, with a reader
  `ParseJobMessage` as its partner, proving what the unescaped text conveys.
- `Hook` (hook.dfy): `main` as a function `Run(env, server)` from the
  environment and a network oracle `server: Request -> Response` to an
  `Outcome`, which holds the exit code and the requests sent (a sequence, so
  that "at most one send" is a statement and not a type).

Two behaviours of the code depart from Slack's documented API, and the model
follows the code:

- Slack documents `unfurl_links` as a boolean. The code builds a
  `map[string]string` (main.go:28-34), so it sends the string `"false"`.
  `Slack.Payload` sends the string.
- Slack documents a boolean `ok` in every response. The code counts a 200
  object with no `ok` entry, or a non-boolean one, as a success
  (main.go:71-78, `Slack.MissingOrNonBooleanOkIsSuccess`). A body of JSON
  `null` also decodes without error in Go, to a nil map, and so succeeds as
  well (`Slack.NullBodyIsSuccess`).

## Model

| member | source | states |
|---|---|---|
| `Environment.GetEnv` | main.go:18-23 | a set variable yields its stored value (even the empty string); the default is returned only for an unset variable |
| `Environment.GetEnvSeesUpdate` | main.go:18-23 | after setting a variable to any value, including "", lookups return that value and lookups of other variables are unchanged |
| `Slack.Payload` | main.go:28-34 | the body has exactly the keys username, icon_emoji, unfurl_links, channel and text; the first three are "NZBGet", ":seal:" and the string "false"; channel and text are the arguments verbatim |
| `Slack.PayloadInjective` | main.go:28-34 | two payloads are equal if and only if their texts and channels are equal |
| `Slack.Lookup` | main.go:71-73 | indexing the decoded object gives a value exactly for a present key, and then that key's value; an absent key gives nothing (Go's nil) |
| `Slack.OkFlag` | main.go:71 | the `ok` type assertion yields a boolean exactly when the entry is present and boolean, and then it is that entry's value |
| `Slack.Classify` | main.go:37-78 | success if and only if a response arrived with status 200, a readable body that decodes as an object, and an `ok` entry that is not the boolean false; each failure reason occurs exactly in its own case; a rejection reports the `error` entry |
| `Slack.MissingOrNonBooleanOkIsSuccess` | main.go:71-78 | a 200 object with no `ok` entry or a non-boolean one is a success |
| `Slack.NullBodyIsSuccess` | main.go:65-78 | a body that decodes to an empty map (JSON `null`) is a success |
| `Slack.ExplicitOkFlag` | main.go:71-78 | `{"ok": false, "error": e}` is a rejection reporting `e`; `{"ok": true}` is a success |
| `Message.JobMessage` | main.go:120-121 | the text is the fixed prefix `Download of "`, the name verbatim, the fixed middle `" completed.\nStatus: `, then the status verbatim, at fixed positions |
| `Message.ParseJobMessageExact` | main.go:121 | reading a text yields (name, status) if and only if the text is that job's notification and the name has no double quote |
| `Message.QuotedNameIsAmbiguous` | main.go:121 | because nothing is escaped, two different (name, status) pairs can give the same notification text |
| `Hook.Run` | main.go:81-130 | every run exits 93 or 94 and never 95, after sending at most one request |
| `Hook.Notify` | main.go:105-109 | sending one message sends exactly one request, whose body is the five-field payload of that text and the channel and whose bearer credential is the token, and exits 93 when it was delivered and 94 when it failed |
| `Hook.ExitAfter` | main.go:122-126 | the exit code after a send is 93 exactly when the server answered 200 with a readable body decoding to an object whose `ok` is not the boolean false, and 94 otherwise |
| `Hook.CredentialsSet` | main.go:83-88 | the credentials count as set exactly when both the token and the channel variables are present and not empty |
| `Hook.Suppressed` | main.go:113-115 | the policy suppresses exactly when the status variable is present and equal to "SUCCESS/ALL" and the policy variable is present and equal to "OnFailure" |
| `Hook.MissingCredentials` | main.go:83-91 | an empty or unset token or channel gives exit 94 with no send, whatever else is set, and that is the only way to exit 94 without sending |
| `Hook.ConnectionTest` | main.go:103-110 | with credentials and the ConnectionTest command, exactly one request with text "Connection test" is sent and the exit code follows its delivery |
| `Hook.ConnectionTestIgnoresJob` | main.go:103-113 | on the connection-test path, changing the status, the policy or the job name does not change the outcome |
| `Hook.SuppressionTable` | main.go:113-129 | with credentials and no test command, nothing is sent exactly when the status is "SUCCESS/ALL" and the policy is "OnFailure", and then the exit code is 93 |
| `Hook.JobNotification` | main.go:119-126 | in the other three cells of the table, exactly the job notification for the name and status is sent, with the configured token and channel, and the exit code follows its delivery |
| `Hook.AttemptsUseSettings` | main.go:83-126 | every request sent carries the configured token and channel |
| `Hook.SuccessExit` | main.go:81-130 | the run exits 93 if and only if the credentials are set and either the policy suppressed the job message or the one send made was delivered |
| `Hook.DebugFlagIrrelevant` | main.go:94-100 | setting or removing the debug variable never changes the outcome |
| `Hook.OnlyReadVariablesMatter` | main.go:83-120 | two environments that agree on the six variables that can affect the outcome, with unset and empty treated alike, give the same outcome |
| `Hook.SuppressedScenario` | main.go:113-129 | a fully successful job with the OnFailure policy: no send, exit 93 |
| `Hook.FailureScenario` | main.go:119-126 | a failed job "Foo" with no policy: one request with its notification text; the exit code follows its delivery |

## Left out

- Building the HTTP request and sending it (the URL, the `Content-Type` and
  `Authorization` headers, `client.Do`, main.go:37-52): network I/O. The
  `Slack.Request` record (the JSON body and the bearer token) stands in for
  the request built at main.go:37-44; whether sending failed and what came
  back is the `Response` given by the `server` parameter.
- JSON encoding of the payload and decoding of the response body: library
  code. The payload is the map that is encoded; the decoding outcome is the
  `Decoded` value, chosen by the `server` parameter. Go converts every JSON
  number to a float64 and fails the whole decode for a literal out of range,
  and also fails beyond its nesting limit; such bodies are `NotAnObject`.
  Numbers that do decode are kept as their literal text. Duplicate keys are
  not modelled.
- The debug dump of all environment variables: it only prints. The model
  proves instead that the debug variable cannot change the outcome.
- Log and print messages and the text of error strings: diagnostics only. The
  reason for a failure is kept as `Slack.Failure`, but its wording is not.
- `os.Exit` as process termination: modelled as returning the `Outcome`.
- Go byte strings: strings are modelled as sequences of Unicode characters.
  Go strings are bytes, and `json.Marshal` (main.go:35) replaces invalid
  UTF-8 with U+FFFD, so two different byte strings can reach the server as
  the same text; the model does not capture this.
- Case-insensitive variable names: the environment is a map with exact
  string keys, as on Unix. On Windows `os.LookupEnv` ignores the case of the
  name, which the model does not capture.
- The absence of a client timeout and of retries: a runtime concern. A hung
  request has no outcome in the model.
