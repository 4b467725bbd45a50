# rev-proxy-rs: shutdown coordination, modelled in Dafny

rev-proxy-rs is a single-upstream HTTP reverse proxy that can be told to stop by an
authenticated `GET /shutdown?key=…` request. It then drains its open connections and,
once the server task has finished, notifies a configured upstream shutdown URL.

This project models the decision logic of that shutdown path in `src/main.rs`:

- **The take-once slot** (`Signal`): the shared `Option` that holds the one-shot
  sender. It is a class `ShutdownSlot` with a `held` field and a `Take` method, plus
  the pure `TakeFrom` that states the same step on values. A poisoned lock is an input
  (`lockAcquired`): `.ok()?` then yields `None` and leaves the slot alone.
- **The shutdown route and the router** (`ShutdownRoute`): the handler closure checks
  the key and takes from the slot. It answers `Ok("success")` when it took a sender
  and sent `true` on it, whatever `send` returned. It answers `Ok("failure")` when the
  slot was empty. `shutdown_route.or(…)` hands every request the route rejects to the
  forwarding branch.
- **A sequence of requests** (`ShutdownRun`): `take` is atomic, so concurrently
  handled requests behave like some order of arrivals. The lemmas show four things:
  - the sender is sent on at most once;
  - "success" goes exactly to the first arrival that fires;
  - every later authorized request gets "failure";
  - arrivals that do not fire change nothing.
- **After the drain** (`UpstreamNotify`): the notification URL is the shutdown URL
  followed by the key, with no encoding. The request is skipped exactly when both are
  empty. `main`'s steps after serving form a small trace: the server finished, then at
  most one upstream request.

Four behaviours of the code are easy to misread; the model keeps them as written:

- A wrong key is rejected with `not_found`, but because of `or` the request then goes
  to the forwarding branch. The gateway does not answer 404 itself. (`Route`)
- "failure" is an `Ok` reply, so it is a normal 200 response and not an error status.
- The route matches any HTTP method on `/shutdown`, not only GET.
- A failed upstream notification propagates out of `main` through `?`, so `main`
  returns an error. It does not exit cleanly. (`AfterServe`)

## Model

| member | source | states |
|---|---|---|
| `Signal.TakeFrom` | src/main.rs:36-38 | a take yields a sender exactly when the lock is acquired and the slot is full; the sender handed out is the one held, and the slot is then empty; a take that yields nothing leaves the slot as it was |
| `Signal.ShutdownSlot.constructor` | src/main.rs:40-45 | the slot is created holding the channel's sender |
| `Signal.ShutdownSlot.Take` | src/main.rs:36-38 | on the shared slot: returns the held sender and empties the slot, or returns `None` and changes nothing (empty slot or poisoned lock) |
| `Signal.TakeTwice` | src/main.rs:36-45 | on a fresh slot the first take returns the sender and the second returns `None` |
| `Signal.Send` | src/main.rs:106-110 | sending `true` on the one-shot sender is delivered exactly when the receiver is alive, otherwise the value comes back |
| `ShutdownRoute.HandleShutdown` | src/main.rs:100-115 | wrong key: `not_found`, slot untouched, nothing sent; right key: "success" iff the lock was acquired and the slot held a sender, in which case the slot is emptied and `true` is sent once, with "success" regardless of the send result; otherwise "failure" as a normal reply and no change |
| `ShutdownRoute.HandleShutdownRequest` | src/main.rs:100-115 | the handler run against the shared slot produces the outcome, new slot content and send that `HandleShutdown` describes |
| `ShutdownRoute.Route` | src/main.rs:95-126 | a request is forwarded untouched, with the slot unchanged and nothing sent, iff it is not a `/shutdown` request carrying the configured key; otherwise it gets the shutdown handler's reply body |
| `ShutdownRoute.Dispatch` | src/main.rs:124-126 | the router run against the shared slot behaves as `Route` describes |
| `ShutdownRoute.TwoShutdownRequests` | src/main.rs:100-115 | two right-key requests on a fresh slot give "success" (sending `true`) and then "failure" (sending nothing) |
| `ShutdownRoute.WrongKeyRequest` | src/main.rs:101-102 | a `/shutdown` request with a wrong key is forwarded and the slot still holds its sender |
| `ShutdownRun.Run` | src/main.rs:124-126 | every arrival gets one response; it is forwarded as is iff it is not authorized, and an authorized one is answered "success" or "failure" |
| `ShutdownRun.SenderConserved` | src/main.rs:104-110 | over any sequence of requests the sender is either still in the slot with nothing sent, or `true` has been sent on it exactly once; an empty slot never sends |
| `ShutdownRun.NoFiringNoChange` | src/main.rs:101-105 | requests that do not fire (wrong key, other path, poisoned lock) leave the slot unchanged and send nothing |
| `ShutdownRun.RouteFiring` | src/main.rs:100-115 | one routed request answers "success" iff it fires on a full slot, and only then empties the slot |
| `ShutdownRun.SuccessExactlyAtFirstFiring` | src/main.rs:100-115 | the i-th response is "success" iff the slot started full, the i-th arrival fires and none before it did |
| `ShutdownRun.AtMostOneSuccess` | src/main.rs:104-110 | no two responses in a run are both "success" |
| `ShutdownRun.LaterAuthorizedRequestsFail` | src/main.rs:104-114 | after a "success", every later right-key `/shutdown` request is answered "failure" |
| `UpstreamNotify.NotificationUrl` | src/main.rs:139-144 | the URL is the shutdown URL followed by the key, with lengths adding up; it is absent iff both are empty |
| `UpstreamNotify.NotificationUrlExample` | src/main.rs:77-84 | with the usage text's example URL, the key is appended right after `key=` |
| `UpstreamNotify.AfterServe` | src/main.rs:135-152 | the server's finishing comes first; exactly one upstream request to URL plus key follows iff that string is not empty; `main` returns an error iff the request was made and failed |

## Left out

- The graceful drain (`bind_with_graceful_shutdown`, awaiting the receiver, spawning the server task): it is concurrency inside the HTTP server library. The model only records that the server has finished before the notification.
- The `Arc`/`Mutex` sharing: `take` is treated as atomic, and a poisoned lock is an input to each take rather than a state that persists.
- Forwarding through the reverse-proxy filter and `log_response`: a foreign library and logging. A forwarded request is the response `Forwarded(request)`.
- Path splitting, percent-decoding and query deserialisation by the HTTP framework: a request arrives with its path segments and its decoded `key`, or `None` when the query has no usable `key`.
- Configuration loading from the environment, listen-address parsing, the version banner and logger setup: environment I/O and library calls. Their `?` errors before serving are not modelled.
- The upstream GET and reading its body: network I/O, given to `AfterServe` as the `fetch` parameter.
- All logging, including the per-request access log.
- The OS-signal trigger: this source has only the HTTP trigger.
- upstream.py (a test HTTP server) and build.rs (build-time version keys).
