# MailHog-Server HTTP API handlers, modelled in Dafny

This project models the request-handling rules of MailHog-Server's HTTP query
and management API (API v1 and API v2). MailHog is an email-capture service.
Its API lets a UI page through and search the captured messages, download
one as a raw `.eml` file, release one to a real SMTP server, and switch the
chaos monkey ("Jim") on and off.

Each handler is a Dafny method over an explicit state. The state is a
`ServerConfig.Config` object (CORS origin, host name, storage, the registry
of named outgoing servers, the active Jim settings and the process-wide
default Jim) and an `Http.Response` object (status, headers, the response
writer's headers, and the sequence of body writes). Every handler is proved
against a pure specification function, and the promised properties are
proved as lemmas about those functions:

- `paging.dfy`: `getStartLimit`, which turns the `start` and `limit` query
  strings into a window with defaults and a clamp. It uses `strconv.dfy`, a
  model of Go's `strconv.ParseInt(s, 10, 64)` with its round trip through
  decimal rendering.
- `apiv2.dfy`: the `messages` and `search` result envelopes and the
  parameter checks of `search`.
- `jim.dfy`: the Jim lifecycle (GET/POST/PUT/DELETE) as a transition
  function, with the four handlers and `newJimFromBody` as methods on the
  config.
- `release.dfy`: `release_one`. This covers the registry update, the merge
  of a saved server into the request, the choice of authentication and the
  SMTP send call.
- `serialise.dfy`: the raw message form that `release_one` and `download`
  both produce. It is one `name: value\r\n` line per header value, then
  `\r\n`, then the body. It is stated for any order of header names,
  because Go's map iteration order is unspecified.
- `apiv1.dfy`: `download`, which writes that form one line per Write.
- `cors.dfy`: the CORS rules of `defaultOptions` and of the event stream.

Storage is a record of functions (`load`, `list`, `count`, `search`), plus a
flag saying whether it is one of the two backend types the API v1 handlers
switch on. A JSON
request body is an `Option` input, where None means it did not decode. JSON
replies are recorded as abstract `Json(...)` writes.

## Model

| member | source | states |
|---|---|---|
| `Cors.WithCors` | api/v1.go:80-86 | headers are unchanged exactly when the CORS origin is empty; otherwise Allow-Origin, Allow-Methods and Allow-Headers each gain one value at the end and every other header is kept (api/v2.go:51-57 is the same rule) |
| `Cors.WithStreamCors` | api/v1.go:98-101 | the event stream's variant: the same rule with only Allow-Origin and Allow-Methods |
| `CorsHandlers.DefaultOptions` | api/v2.go:51-57 | the handler's headers become `WithCors` of the old headers and the configured origin |
| `CorsHandlers.EventStream` | api/v1.go:94-104 | the response writer's headers become `WithStreamCors` of the old ones |
| `Strconv.ParseFormatInt` | api/v2.go:71-76 | every 64-bit integer written in decimal parses back to itself |
| `Strconv.ParseIntRejectsNonDigit` | api/v2.go:71-76 | a string holding a character other than a leading sign or a digit does not parse |
| `Paging.StartLimit` | api/v2.go:66-84 | the window always has start >= 0 and 1 <= limit <= 250 |
| `Paging.StartDefault` | api/v2.go:67-73 | an absent, unparseable or non-positive `start` gives start 0 |
| `Paging.StartGiven` | api/v2.go:70-73 | a `start` parsing to n > 0 gives start n |
| `Paging.LimitDefault` | api/v2.go:68-81 | an absent, unparseable or non-positive `limit` gives limit 50 |
| `Paging.LimitGiven` | api/v2.go:75-81 | a `limit` parsing to n > 0 gives min(n, 250) |
| `Paging.NoParameters` | api/v2.go:66-84 | with neither parameter the window is (0, 50) |
| `Paging.DecimalParameters` | api/v2.go:70-81 | a client sending decimal start and limit gets its start if positive, else 0, and its limit if positive, capped at 250, else 50 |
| `ApiV2.MessagesPage` | api/v2.go:91-100 | count equals the number of items, start is the normalised start, the items are storage's page for the normalised window, and total is the store's count |
| `ApiV2.SearchPage` | api/v2.go:112-133 | the 400 reply happens exactly when `kind` is not from/to/containing or `query` is empty; otherwise count equals the number of items, start is the normalised start, and items and total are storage's search answer for that window |
| `ApiV2.SearchRejectionIgnoresStorage` | api/v2.go:114-124 | a rejected search gives the same reply whatever storage holds, so storage is never queried |
| `ApiV2.SearchDependsOnlyOnPage` | api/v2.go:128-133 | two stores that answer the normalised window alike give the same search reply |
| `ApiV2.Messages` | api/v2.go:86-105 | adds the CORS headers and Content-Type text/json, and writes `MessagesPage` as JSON; the status is untouched |
| `ApiV2.Search` | api/v2.go:107-138 | on rejection: status 400, nothing written, only the CORS headers added; otherwise the status is untouched, Content-Type application/json is added and `SearchPage` is written |
| `JimApi.FromBody` | api/v2.go:188-204 | an undecodable body changes nothing; a decoded one, completed from the old default by `configure`, becomes both the active settings and the default |
| `JimApi.Transition` | api/v2.go:140-220 | GET/PUT/DELETE with the monkey off reply 404 and change nothing; POST with it on replies 400 and changes nothing; GET shows the active settings; DELETE switches it off; POST with it off replies 201 and switches it on, from the body when it decodes and from the unchanged default when it does not; PUT replies 400 and changes nothing exactly when the body does not decode, and otherwise takes the body's settings with no status set |
| `JimApi.TransitionKeepsActiveDefault` | api/v2.go:165-201 | every request keeps "the active settings, if any, are the process default" |
| `JimApi.RunKeepsActiveDefault` | api/v2.go:140-220 | that invariant holds after any sequence of requests from a state where it holds |
| `JimApi.RunWithoutBodiesKeepsDefault` | api/v2.go:188-201 | the process default changes only through a decoded body |
| `JimApi.PostThenDelete` | api/v2.go:155-186 | switching on with 201 and then DELETE leaves the monkey off with no error status |
| `JimApi.PostThenGet` | api/v2.go:140-186 | after switching on, GET shows the decoded-and-completed body, or the old default when the body did not decode |
| `JimApi.GetJim` | api/v2.go:140-153 | the response is the one `Transition` gives for GET |
| `JimApi.DeleteJim` | api/v2.go:155-166 | the new state and the response are the ones `Transition` gives for DELETE |
| `JimApi.NewJimFromBody` | api/v2.go:188-204 | reports success exactly when the body decodes; on success the state is `FromBody`'s, otherwise it is unchanged |
| `JimApi.CreateJim` | api/v2.go:168-186 | the new state and the response are the ones `Transition` gives for POST |
| `JimApi.UpdateJim` | api/v2.go:206-220 | the new state and the response are the ones `Transition` gives for PUT |
| `Serialise.ValueLines` | api/v1.go:287-289 | one line `name: value\r\n` per value, in stored order |
| `Serialise.SerialiseMessage` | api/v1.go:285-291 | the bytes built are the header lines for the order the map yielded (a visit of every header name exactly once), then `\r\n`, then the body |
| `Serialise.AppendValueLines` | api/v1.go:287-289 | the inner loop appends the lines of one header's values in order |
| `Serialise.LineCount` | api/v1.go:286-290 | the number of header lines equals the total number of header values |
| `Serialise.LinesPermutation` | api/v1.go:286-290 | any two visiting orders give the same header lines up to rearrangement |
| `Serialise.DownloadChunks` | api/v1.go:162-167 | the writes of `download`, concatenated, are exactly the serialised message |
| `ApiV1.EmlName` | api/v1.go:157 | the download file name is the id followed by `.eml` |
| `ApiV1.Attachment` | api/v1.go:157 | the Content-Disposition value is `attachment; filename="<id>.eml"` |
| `ApiV1.WriteValueLines` | api/v1.go:163-165 | one Write per value of one header, in order |
| `ApiV1.WriteHeaderLines` | api/v1.go:162-166 | one Write per header line, for the order the map yielded |
| `ApiV1.WriteMessage` | api/v1.go:162-167 | the header-line Writes, then one Write of `\r\n` and the body |
| `ApiV1.Download` | api/v1.go:150-179 | adds the CORS headers, Content-Type message/rfc822 and the attachment disposition; on a backend of neither switched type, sets 500 and writes nothing; otherwise writes the stored message's `DownloadChunks` and leaves the status untouched |
| `Release.UseSaved` | api/v1.go:264-275 | Name, Host, Port, Username, Password and Mechanism come from the saved entry; Email comes from it only when the request's is empty |
| `Release.UseSavedIdempotent` | api/v1.go:264-275 | completing twice from the same entry is completing once |
| `Release.UseSavedSelf` | api/v1.go:259-275 | completing a request from its own copy leaves it unchanged |
| `Release.SelectAuth` | api/v1.go:293-307 | no auth exactly when username and password are both empty; otherwise CRAMMD5 or PLAIN with the given credentials, and a 400 reply for any other mechanism |
| `Release.MechanismIgnoredWithoutCredentials` | api/v1.go:295 | without credentials the mechanism does not matter |
| `Release.SavedRegistry` | api/v1.go:253-262 | a 400 reply exactly when Save is set and the name is taken; otherwise the request is added under its name when Save is set, and the registry is kept when it is not |
| `Release.Resolved` | api/v1.go:264-281 | a 400 reply exactly when the name is non-empty and not registered; an unnamed request is used as it is; a named one is completed by `UseSaved` |
| `Release.PlanRelease` | api/v1.go:239-307 | an undecodable body gives 500 with the registry untouched; a duplicate save gives 400 with the registry unchanged; a new save adds exactly the request under its name; an unknown name gives 400; a request is delivered exactly when it passes the save, lookup and mechanism checks, with the completed settings and `SelectAuth`'s authentication |
| `Release.UnsupportedMechanismRefused` | api/v1.go:297-306 | credentials with a mechanism other than CRAMMD5 or PLAIN give 400 and no send |
| `Release.RegistryOnlyGrows` | api/v1.go:253-262 | a release never removes or alters a registered server, and adds at most one: the request under its own name |
| `Release.SavedServerUsedAsGiven` | api/v1.go:253-275 | a server saved by the request (under any name, the empty one included) is then used with exactly the request's settings |
| `Release.SaveServer` | api/v1.go:253-262 | the registry becomes `SavedRegistry`'s, or is unchanged on the 400 reply |
| `Release.ResolveServer` | api/v1.go:264-281 | the field-by-field overwrite computes `Resolved` |
| `Release.ChooseAuth` | api/v1.go:293-307 | the mechanism switch computes `SelectAuth` |
| `Release.ReleaseOne` | api/v1.go:230-316 | the registry becomes the plan's; a refusal sets its status (500 or 400) and sends nothing; a delivery calls SendMail with `host:port`, the chosen auth, sender `nobody@<hostname>`, the one recipient and the serialised message, and sets 500 only if sending fails; the decode error writes "Error decoding request body" |

## Left out

- The SMTP side (`smtp/smtp.go` `Listen` and the protocol session) is not part of this model. The listener is network plumbing and goroutines, and the session's implementation file is not among the sources.
- API v1 `messages`, `message`, `delete_all` and `delete_one` only pass calls through to the storage package and are not modelled. `Download` does model its storage type switch: the `concrete` flag of `Storage` picks between the message write and the 500 reply.
- `download_part` is not modelled: MIME parts are not represented in the model's messages.
- Concurrency is not modelled. Go's HTTP server runs handlers concurrently over the shared `Config` without locking. The model runs requests one at a time, and `Run` is a sequential history. The check-then-act steps of `createJim` (test `Monkey`, then set it) and of `release_one` (test the registry, then insert) are not atomic in the source. Under concurrent requests, `RunKeepsActiveDefault` and the refusal of a duplicate save are not guaranteed by the source.
- Storage errors are not modelled. The handlers discard them, and the model's storage always answers.
- JSON encoding and decoding are not modelled. A decoded body is an `Option` input, and a JSON reply is an abstract `Json` write.
- The event stream's receiver registration, the broadcast goroutine and route registration are not modelled.
- `smtp.SendMail`, `CRAMMD5Auth` and `PlainAuth` are foreign calls. The send is recorded as a `SendRequest` value, and its success is the input `sendOk`.
- `monkey.Jim.ConfigureFrom` is a foreign call. It is the function parameter `configure`.
- `config.Jim` is a package-level pointer. It is the `jim` field of `Config`, assumed non-nil. The sharing of one pointer between `Monkey` and `config.Jim` is modelled by value; no handler mutates through either pointer.
- Header keys are not canonicalised by `Add`. Every key the handlers use is already canonical.
- Go's map iteration order is a nondeterministic choice. The serialising methods return the order they used.
- `Download`, `ReleaseOne`: a missing message (a nil dereference in the source) is a precondition and is not modelled as a crash.
- `ReleaseOne`: states the sent bytes as the serialisation for some visiting order of the header names, not for one fixed order. Go gives no fixed order.
