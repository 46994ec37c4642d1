# Ordered publish over a cached topic registry

This project models the core of a small HTTP-to-Pub/Sub proxy written in Go.
The core appears three times, almost identically:

- `PubSubClient` in wrapper.go,
- `PubSubManager` in internal/gcp/pubsub.go,
- `PubSubService` in main.go.

Each copy has two parts:

- A **topic registry** (`getTopic`). It maps a topic name to a topic handle.
  On a hit it returns the cached handle. On a miss it creates a handle with
  message ordering enabled and stores it with `LoadOrStore` (insert if absent).
- An **ordered publish**. It publishes the data, attributes and ordering key,
  then waits for the result. When a publish with a non-empty ordering key
  fails, it calls `ResumePublish(key)` before it returns the error. Without
  that call the library keeps the key paused, and every later message with
  that key fails.

Files:

- `backend.dfy` (module `Backend`) is an abstract model of the Pub/Sub client
  library. It has a `Client` (the connection) and a `Topic` (a handle). A
  handle keeps per-key pause state (Flowing or Paused), the log of messages
  handed to the service, the log of `ResumePublish` calls, and whether it is
  stopped. The pure function `Submit` is the handle's state machine; the
  `Topic` methods are proved against it. The service's answer (a message ID
  or a rejection) is a parameter, `Verdict`.
- `registry.dfy` (module `Registry`) has the sequential `sync.Map.LoadOrStore`
  and the registry invariant `Registered`: every cached handle belongs to its
  own name, comes from the same connection, and has ordering enabled.
- `policy.dfy` (module `Policy`) is the resume-on-failure policy as a pure step,
  `PublishResuming`. Its lemmas cover runs of publishes with and without the
  policy.
- `wrapper.dfy`, `gcp.dfy` and `proxy.dfy` hold the three Go structs as
  classes. Each class has its own `topics` map and `GetTopic`, as in the
  source. Each publishing method is proved to leave the handle in the state
  `PublishResuming` prescribes.

Two behaviours of the code are worth stating outright:

- Publish errors carry no topic name or ordering key. wrapper.go adds the
  fixed text "failed to publish message"; internal/gcp/pubsub.go returns the
  backend error unwrapped.
- main.go does not reject an empty topic. A body that decodes with an empty
  topic is published to the topic named "".

## Model

| member | source | states |
|---|---|---|
| `Backend.Submit` | wrapper.go:47-53 | The library's publish-and-wait. A message reaches the service exactly when the handle admits it: ordering is enabled or the key is empty, the handle is not stopped, and the key is not paused. It succeeds exactly when admitted and accepted, returning the service's ID. It pauses the key exactly when a keyed message is admitted and rejected. The empty key is never paused. |
| `Backend.Client.constructor` | wrapper.go:18 | A new connection is open. |
| `Backend.Client.Topic` | wrapper.go:35 | `client.Topic(id)` returns a fresh handle for that name on this connection. Ordering is off, nothing is paused or logged, and it is not stopped. |
| `Backend.Client.Close` | wrapper.go:76 | The connection is closed afterwards. |
| `Backend.Topic.Publish` | wrapper.go:47-53 | The handle's new state and the returned outcome are exactly `Submit` of the old state. |
| `Backend.Topic.ResumePublish` | wrapper.go:58 | The key is Flowing afterwards and no other key changes. The call is recorded once in the resume log. |
| `Backend.Topic.Stop` | wrapper.go:73 | The handle is stopped. It counts as flushed exactly when its connection was still open (or it was flushed before). |
| `Registry.LoadOrStore` | wrapper.go:40 | Insert if absent. `loaded` holds exactly when the key was present. Afterwards the key is present and maps to the returned value. Existing entries are untouched and keep precedence. A new entry holds the given value. No other key is added. |
| `Policy.PublishResuming` | wrapper.go:53-62 | After a publish under the policy, its key is Flowing and every other key keeps its pause state. `ResumePublish` runs exactly once, on that key, exactly when a keyed publish fails. The caller sees the library's outcome and log unchanged. |
| `Policy.UnkeyedPublishLeavesPausesAlone` | wrapper.go:57-60 | A publish with an empty ordering key issues no resume and changes no pause state, whether it succeeds or fails. |
| `Policy.RunResuming` | wrapper.go:44-62 | Any sequence of publishes under the policy keeps the empty key unpaused. |
| `Policy.ReadyPublish` | wrapper.go:53-62 | On a ready handle (ordering on, not stopped, nothing paused), one publish under the policy sends the message and leaves the handle ready. It resumes the key exactly when a keyed message is rejected. |
| `Policy.ResumingLeavesNoKeyPaused` | wrapper.go:54-59 | After any sequence of policy publishes, every key used is Flowing and unused keys keep their state. From a fresh handle nothing is ever paused. |
| `Policy.ResumingDeliversEverything` | wrapper.go:54-59 | Start from a ready handle: ordering on, not stopped, nothing paused. Then every message of any run reaches the service, in order, and the handle stays ready. Exactly the rejected keyed messages are resumed, once each, in order. |
| `Policy.LibraryAloneWedgesKey` | wrapper.go:55-56 | Without the resume, a paused key stays paused through any later publishes. None of them with that key reaches the service, and earlier log entries are kept. |
| `Policy.FailThenRetry` | wrapper.go:53-62 | A keyed publish is rejected, then the same key is accepted. Under the policy the second publish returns its ID, the key is resumed exactly once, and both messages reach the service. Under the library alone the second publish fails as paused and is not sent. |
| `Wrapper.PubSubClient.constructor` | wrapper.go:22-26 | The client starts with an empty registry on the given connection. |
| `Wrapper.PubSubClient.GetTopic` | wrapper.go:30-42 | On a hit, it returns the cached handle and leaves the map unchanged. On a miss, it stores a fresh handle with ordering enabled under that name only and returns it. Afterwards the name maps to the returned handle, and every cached handle has ordering enabled. |
| `Wrapper.PubSubClient.Publish` | wrapper.go:44-63 | The registry changes as in `GetTopic`. The message is exactly (data, attrs, orderingKey). The handle ends in the `PublishResuming` state, so a failed keyed publish is resumed. Success returns the ID with a nil error. Failure returns "" with the backend error wrapped in "failed to publish message". Only that one handle changes. |
| `Wrapper.PubSubClient.Close` | wrapper.go:71-77 | Every cached handle is stopped and otherwise unchanged. Each is flushed while the connection is still open, and the connection is closed after that. The map is unchanged. |
| `Wrapper.PublishWithOrderingKey` | wrapper_test.go:14-60 | The situation the test sets up: one accepted keyed publish on a new client returns a non-empty ID and no error. The topic holds exactly that message, with the same ordering key. |
| `Wrapper.RetryAfterFailure` | wrapper.go:53-62 | The first keyed publish is rejected and returns the wrapped service error. The second publish with the same key is accepted and returns its ID. The key was resumed exactly once. |
| `Gcp.PubSubManager.constructor` | internal/gcp/pubsub.go:20 | The manager starts with an empty registry on the given connection. |
| `Gcp.PubSubManager.GetTopic` | internal/gcp/pubsub.go:42-50 | The same as `Wrapper.PubSubClient.GetTopic`: the cached handle on a hit, with no change; insert if absent with ordering enabled on a miss. |
| `Gcp.PubSubManager.Publish` | internal/gcp/pubsub.go:23-40 | The handle ends in the `PublishResuming` state, so a failed keyed publish is resumed and an unkeyed one is not. Failure returns "" with the backend error unwrapped. Success returns the ID with a nil error. Only that one handle changes. |
| `Gcp.PubSubManager.Close` | internal/gcp/pubsub.go:52-54 | Only the connection is closed. The cached handles are not stopped and the map is unchanged. |
| `Proxy.PubSubService.constructor` | main.go:96-98 | The service starts with an empty registry on the given connection. |
| `Proxy.PubSubService.GetTopic` | main.go:28-39 | The same as `Wrapper.PubSubClient.GetTopic`: the cached handle on a hit, with no change; insert if absent with ordering enabled on a miss. |
| `Proxy.PubSubService.PublishHandler` | main.go:41-76 | A non-POST request gets 405 and an undecodable body gets 400. Both leave the registry and all handles untouched. Otherwise the topic is resolved as in `GetTopic` and the handle ends in the `PublishResuming` state. Success answers 200 with the message ID. Failure answers 500 with the error, after the resume of a keyed publish. |

## Left out

- The HTTP server, routing and `ListenAndServe` (main.go:100-105, cmd/proxy/main.go, internal/server/). They only delegate to `Publish` and map errors to status codes.
- Configuration loading from environment variables and flags, including the fatal exit when the project ID is missing. This is I/O.
- JSON encoding and decoding. A request body is either a decoded `PublishRequest` or `Undecodable`. The response body is a datatype, not the bytes written.
- Logging (`log.Printf`). The text of the 500 response is the error itself, not its `%v` formatting.
- `Subscribe` (wrapper.go:65-68). It is a pass-through to the library's receive loop.
- Concurrency. The `sync.Map` is a sequential map, and `LoadOrStore` after a miss always stores. Simultaneous requests and concurrent in-flight publishes are not modelled.
- Context cancellation. The library's batching, retries, gRPC transport, and the generation and uniqueness of message IDs are also left out. The service's answer is the `Verdict` parameter; a message ID is only known to be non-empty.
- Creating the connection (`NewPubSubClient`, `NewPubSubManager`, `pubsub.NewClient`) and its errors. The classes take an already open `Client`.
- The Pub/Sub client library is not part of this model. `Backend` assumes its local checks come in this order: ordering key without ordering enabled, stopped handle, paused key.
- Gcp.PubSubManager.Close: the error `client.Close` returns is not modelled, so the method returns nothing.
- Go's nil attribute map is the empty map. The `attributes` of a message is a `map<string, string>`.
