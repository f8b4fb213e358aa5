# Monero node health check — verified model

The website of the monero-node repository answers `GET /healthcheck` with a
JSON object `{"monerod": <status>}` saying whether the Monero daemon
(`monerod`) is online, offline or still syncing. The status comes from one
call to the daemon's `get_info` endpoint, classified by `getMoneroDStatus` in
`website/main.go`. This project models that classifier, the three status
constants and their wire strings, the fields it reads from the daemon's
reply, and the body the handler writes, and proves the classifier's
precedence contract case by case.

Modules:

- `Wrappers` — `Option`, used by the readers of wire values.
- `Status` — the `MoneroDStatus` enumeration, its wire strings (`"online"`,
  `"offline"` and the misspelled `"Syning"`), and a reader that inverts them.
- `Upstream` — the `get_info` outcome: a failed request, or an answer with a
  status code and a body that either failed to decode or decoded to the
  three flags `offline`, `busy_syncing`, `synchronized`. Decoding is modelled
  as reading the reply's boolean members left to right onto an all-false
  record, so a missing field is `false` and the last duplicate wins.
- `HealthCheck` — `GetMoneroDStatus`, the classifier, with its truth table.
- `Endpoint` — the encoded reply body `{"monerod":"<wire>"}` plus newline, a
  consumer-side reader, and the reply of one request.

The network call is an input: the classifier takes the call's `Outcome` as a
parameter instead of performing it. Every request is classified from its own
outcome by a pure function, so concurrent requests cannot interfere.

Two behaviours of the code run against a natural reading of its intent; the model follows the code:

- A reply with `offline: true`, `busy_syncing: false`, `synchronized: true`
  is reported **offline** (the offline flag is checked after the sync checks
  at `website/main.go:60-64`), not online.
- The syncing value is sent as `"Syning"` (`website/main.go:19`), not
  `"syncing"`; the model keeps that spelling because it is what consumers
  receive.

## Model

| member | source | states |
|---|---|---|
| Status.Wire | website/main.go:14-20 | each status's wire string is non-empty and made only of letters, so the JSON encoder emits it verbatim |
| Status.ParseWire | website/main.go:16-20 | a string accepted as a status is exactly that status's wire string |
| Status.ParseWireOfWire | website/main.go:16-20 | every status's wire string reads back as that status |
| Status.WireInjective | website/main.go:16-20 | two statuses have the same wire string if and only if they are the same status |
| Status.WireTable | website/main.go:16-20 | online is sent as "online", offline as "offline" and syncing as the misspelled "Syning"; "syncing" is not a status string |
| Upstream.Assign | website/main.go:26-30 | a reply member named "offline", "busy_syncing" or "synchronized" sets exactly that field; any other member changes nothing |
| Upstream.DecodeMembersFields | website/main.go:46-47 | each decoded flag is true if and only if the reply's last member of that name is true; an absent field is false |
| Upstream.EmptyObjectDecodesToZero | website/main.go:46-47 | the reply `{}` decodes to all three flags false |
| HealthCheck.GetMoneroDStatus | website/main.go:32-69 | online if and only if the call got a 200 whose body decoded to not busy syncing, synchronized and not offline; syncing if and only if it got a 200 whose decoded body is busy syncing or not synchronized |
| HealthCheck.TransportErrorIsOffline | website/main.go:33-38 | a failed GET is offline |
| HealthCheck.NonOkIsOffline | website/main.go:40-44 | any status code other than 200 is offline, whatever the body |
| HealthCheck.DecodeErrorIsOffline | website/main.go:46-52 | a 200 whose body does not decode is offline |
| HealthCheck.BusySyncingIsSyncing | website/main.go:54-58 | busy syncing is syncing whatever the offline and synchronized flags are |
| HealthCheck.NotSyncedIsSyncing | website/main.go:54-58 | not synchronized is syncing whatever the offline flag is |
| HealthCheck.SyncedButOfflineIsOffline | website/main.go:60-64 | not busy, synchronized and offline is offline, not online |
| HealthCheck.SyncCheckPrecedesOfflineFlag | website/main.go:54-64 | while the sync check fires, the offline flag has no effect on the result |
| HealthCheck.EmptyReplyIsSyncing | website/main.go:46-58 | a 200 with body `{}` (or `null`) is syncing, not offline |
| HealthCheck.OfflineExactly | website/main.go:32-64 | offline if and only if the call failed, the code was not 200, the body did not decode, or the body is idle, synchronized and offline |
| HealthCheck.WireOfOutcome | website/main.go:32-69 | the string sent is "online" exactly for a 200 decoded as idle, synchronized and not offline; "Syning" exactly for a 200 decoded as busy or not synchronized; "offline" exactly for every other outcome |
| HealthCheck.NoSyncedMemberIsSyncing | website/main.go:46-58 | a 200 reply without a "synchronized" member is syncing, whatever its other members say |
| HealthCheck.DecodedReplyOnlineExactly | website/main.go:46-68 | a 200 reply is online exactly when its last "busy_syncing" is not true, its last "synchronized" is true and its last "offline" is not true |
| Endpoint.Encode | website/main.go:22-24 | the body starts with `{"monerod":"` and ends with `"}` and a newline, around the status's wire string |
| Endpoint.ReadEncoded | website/main.go:80-83 | reading an encoded response gives back its status |
| Endpoint.ReadBodySound | website/main.go:80-83 | any body that reads as a status is exactly the encoding of that status |
| Endpoint.Serve | website/main.go:80-83 | the body of every health-check reply reads back as the status the classifier derived from that request's outcome |
| Endpoint.ServeNamesExactlyOneStatus | website/main.go:80-83 | every reply carries the assumed default status 200 and its body names exactly one status, the one the classifier derived |

## Left out

- The `http.Get` call itself and the response body stream are network I/O; the model takes their outcome as an `Outcome` value.
- JSON decoding internals are a foreign library: case-insensitive key matching, `null` member values and trailing data after the object are not modelled, and a body that is neither an object nor `null`, or that has a non-boolean value for a known field, is just `DecodeError`. A body that is the JSON value `null` is accepted by the decoder without error and leaves the all-false record, so it is `Decoded` with all fields false and reports syncing, like `{}`.
- JSON encoding internals are a foreign library: the body is modelled directly as the encoder's output for a value that needs no escaping.
- The embedded static file tree, `fs.Sub`, the file server and route registration only serve files and hold no logic of their own.
- The `Content-Type` header and `ListenAndServe` on port 3000 are HTTP plumbing and process start-up.
- Concurrency of the HTTP server: each request is handled independently and the model is pure, so there is nothing to model.
- Timeouts and retries: the code has none. `http.Get` uses the default client, which has no overall timeout, so a stalled daemon leaves the request unanswered; no `Outcome` stands for that case, and the properties about replies speak only of requests that complete.
- The daemon's response body is never closed; resource use is outside the model.
- Endpoint.Serve: the HTTP status 200 is the server's default for a handler that writes a body without setting a status; the model assumes it rather than deriving it.
