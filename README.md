# yt2mp3 session adapter, modelled in Dafny

The yt2mp3 web client talks to its conversion server over a STOMP
publish/subscribe connection. `WebSocketService`
(`src/app/service/websocket.service.ts`) wraps the STOMP client in a small
state machine:

- `connect()` activates the client unless the adapter is connected or the client is already active;
- the client's `onConnect` callback sets the adapter connected and subscribes to `/queue/progress`, `/queue/error` and `/queue/mp3`;
- `startConversion(url)` publishes the URL to `/app/download`, and refuses while disconnected;
- `disconnect()` deactivates an active client and reports disconnected at once;
- `onDisconnect` reports disconnected;
- one handler per queue decodes the frame body into one field: the progress, the error stream or the download URL.

The model has four modules:

- `Decoders` (decoders.dfy): the progress decoder and the download URL normaliser, as functions.
- `Session` (session.dfy): the adapter's whole state, together with a fake transport client, as a datatype. Each subscription in the client's log records its destination and the handler passed with it (`Handler`). It has one function per operation, callback and handler. It also has `Event`, `Apply` and `Run`, which replay any interleaving of events, and the invariant `Inv`.
- `Service` (service.dfy): the class `WebSocketService` with the source's fields, updated in place, owning a `FakeClient`. The fake client has an `active` flag and an ordered log of the activations, deactivations, subscriptions and publications asked of it. Every method of the class is proved to keep `Valid()` and to leave `State()` equal to the matching `Session` function of the old state. `ExampleSession` shows what a caller can conclude from these contracts.
- `Traces` (traces.dfy): lemmas over arbitrary feasible event sequences.

The state holds:

- `connected`, the private flag;
- `progress`, `downloadUrl` and `connectedLatest`, the latest values of the three BehaviorSubjects;
- `errors`, every value emitted on the error Subject;
- the fake client's `active` flag and call log.

The callers of the service expect more than the service provides. This model follows the service (`src/app/service/websocket.service.ts`):

- The home and root components call `startConversion(this.url, this.format)` (src/app/components/home.component/home-component.ts:53, src/app/app.ts:34). The service's `startConversion` (line 73) takes only the URL, and the format is never sent.
- Both components have `// this.ws.reset();` commented out before that call (src/app/components/home.component/home-component.ts:51, src/app/app.ts:32). The service has no `reset`, and `startConversion` clears nothing.
- The home component reads `ws.videoId$` and `ws.title$` (src/app/components/home.component/home-component.ts:19-24). The service defines neither stream, and it subscribes only to `/queue/progress`, `/queue/error` and `/queue/mp3`.

Two behaviours of the service itself are easy to miss:

- An empty progress frame is not dropped. `JSON.parse("")` throws, and `Number("")` is 0, which is finite, so the progress becomes 0 (`Decoders.EmptyBodySetsZero`).
- `disconnect()` does nothing when the client is inactive. Under the invariant the adapter is then already disconnected, so "disconnected after `disconnect()`" still holds (`Traces.DisconnectLeavesDisconnected`).

`JSON.parse` and `Number` are abstract. A progress frame is given as a `ProgressPayload`:

- `ParsedNumber(n)`: the body parsed to a number;
- `ParsedOther(f)`: the body parsed to another value, and `f` is `Number(v?.progress)`;
- `Unparseable(r)`: the try block threw, and `r` is `Number(body)`. This is usually `JSON.parse` throwing, but it can also be the `progress` field's conversion.

Each number is `Finite(x)` or `NonFinite`, which stands for NaN and the infinities. `ParsedNumber` carries a `JsNumber`, not a plain real, because an overflowing literal such as `1e999` parses to Infinity and is then dropped.

## Model

| member | source | states |
|---|---|---|
| `Decoders.NextProgress` | src/app/service/websocket.service.ts:35-44 | a parsed number is used directly, any other parsed value uses its `progress` field, an unparseable body uses its raw numeric value; a finite value becomes the progress, a non-finite one leaves the previous progress |
| `Decoders.NextProgressIdempotent` | src/app/service/websocket.service.ts:35-44 | delivering the same progress frame twice has the effect of delivering it once |
| `Decoders.EmptyBodySetsZero` | src/app/service/websocket.service.ts:39-42 | an empty progress body falls into the catch branch and sets the progress to 0 whatever it was |
| `Decoders.DownloadUrlOf` | src/app/service/websocket.service.ts:54 | the download URL is null exactly when the mp3 body is empty, and is the body otherwise |
| `Session.Connect` | src/app/service/websocket.service.ts:67-71 | no change at all when connected or the client is active; otherwise exactly one activation is requested and `connected` stays false |
| `Session.StartConversion` | src/app/service/websocket.service.ts:73-79 | while disconnected nothing changes and nothing is published; while connected exactly one publication of the URL to `/app/download` is added, and progress, download URL and errors are not reset |
| `Session.Disconnect` | src/app/service/websocket.service.ts:81-87 | an active client is deactivated and `connected` and the connected stream become false; an inactive client means no change; job fields are untouched |
| `Session.OnConnect` | src/app/service/websocket.service.ts:29-57 | sets `connected` and the connected stream true and appends exactly three subscriptions, in this order: `/queue/progress` with the progress handler, `/queue/error` with the error handler, `/queue/mp3` with the mp3 handler; nothing else changes |
| `Session.OnDisconnect` | src/app/service/websocket.service.ts:59-64 | sets `connected` and the connected stream false; progress, download URL and errors are kept |
| `Session.OnProgressMessage` | src/app/service/websocket.service.ts:34-45 | a frame with a finite candidate sets the progress to it; any other frame changes nothing at all; only the progress field can change |
| `Session.OnErrorMessage` | src/app/service/websocket.service.ts:48-50 | the body is appended verbatim to the error stream; progress, download URL and connection state are unaffected |
| `Session.OnMp3Message` | src/app/service/websocket.service.ts:53-55 | the download URL becomes the normalised body; no other field changes |
| `Traces.ConnectIdempotent` | src/app/service/websocket.service.ts:67-71 | a second `connect()` adds no activation and changes nothing |
| `Traces.OnlyOnConnectConnects` | src/app/service/websocket.service.ts:29-31 | the only event that turns `connected` from false to true is the `onConnect` callback |
| `Traces.DisconnectLeavesDisconnected` | src/app/service/websocket.service.ts:81-87 | from any state satisfying the invariant, `disconnect()` leaves the adapter disconnected and the client inactive |
| `Traces.ConnectKeepsInv` | src/app/service/websocket.service.ts:67-71 | `connect()` keeps the invariant; the activation it may add comes only after a deactivation or at the start |
| `Traces.DisconnectKeepsInv` | src/app/service/websocket.service.ts:81-87 | `disconnect()` keeps the invariant; the deactivation it may add follows an activation |
| `Traces.StartConversionKeepsInv` | src/app/service/websocket.service.ts:73-79 | `startConversion` keeps the invariant |
| `Traces.OnConnectKeepsInv` | src/app/service/websocket.service.ts:29-57 | `onConnect`, fired while the client is active, keeps the invariant |
| `Traces.StepKeepsInv` | src/app/service/websocket.service.ts:29-87 | every operation, callback and handler keeps the invariant: `connected` equals the connected stream's latest value; connected implies the client is active; the activations and deactivations in the call log alternate, starting with an activation; and the client is active exactly when the last of them is an activation |
| `Traces.RunKeepsInv` | src/app/service/websocket.service.ts:9-87 | the invariant holds after any feasible interleaving of events |
| `Traces.ConnectedFollowsLastLinkEvent` | src/app/service/websocket.service.ts:29-87 | after any feasible interleaving, the adapter and its connected stream report connected exactly when the last of `disconnect()`, `onConnect`, `onDisconnect` was `onConnect` |
| `Traces.ConnectedUnchangedWithoutLinkEvent` | src/app/service/websocket.service.ts:34-79 | `connect()`, `startConversion` and frames never change the connection state |
| `Traces.ProgressFollowsLastGoodFrame` | src/app/service/websocket.service.ts:34-45 | the progress is the value of the last frame that decoded to a finite number, whatever requests, callbacks or other frames followed |
| `Traces.ProgressUnchangedWithoutGoodFrame` | src/app/service/websocket.service.ts:34-45 | without a finite progress frame the progress keeps its value: nothing resets it |
| `Traces.DownloadUrlFollowsLastMp3Frame` | src/app/service/websocket.service.ts:53-55 | the download URL is the normalised body of the last mp3 frame |
| `Traces.DownloadUrlUnchangedWithoutMp3Frame` | src/app/service/websocket.service.ts:53-55 | without an mp3 frame the download URL keeps its value |
| `Traces.ErrorsAreFrameBodies` | src/app/service/websocket.service.ts:48-50 | the error stream emits exactly the error frame bodies, verbatim and in order |
| `Traces.OnConnectSubscribesOnce` | src/app/service/websocket.service.ts:34-56 | one `onConnect` adds exactly one subscription to each of the three queues, with that queue's own handler, and none for any other destination or handler |
| `Traces.StepSubscriptions` | src/app/service/websocket.service.ts:29-57 | one event adds a subscription of a queue with a handler exactly when the event is `onConnect` and the handler is that queue's own |
| `Traces.SubscriptionsPerConnect` | src/app/service/websocket.service.ts:29-57 | each of the three queues is subscribed with its own handler once per `onConnect`, so it is re-registered on every reconnect; no other destination is ever subscribed, and no queue is subscribed with another queue's handler |
| `Traces.PublicationsComeFromConversions` | src/app/service/websocket.service.ts:73-79 | every publication goes to `/app/download` and carries the URL of a conversion request |
| `Traces.StepPublications` | src/app/service/websocket.service.ts:73-79 | only a conversion request can add a publication, and only of its own URL to `/app/download` |
| `Service.WebSocketService.constructor` | src/app/service/websocket.service.ts:9-27 | not connected, no progress, no download URL, connected stream false, no errors, client inactive with no requests |
| `Service.WebSocketService.Connect` | src/app/service/websocket.service.ts:67-71 | state after the call is `Session.Connect` of the old state; the client is untouched when connected or active |
| `Service.WebSocketService.StartConversion` | src/app/service/websocket.service.ts:73-79 | state after the call is `Session.StartConversion` of the old state; the client is untouched while disconnected |
| `Service.WebSocketService.Disconnect` | src/app/service/websocket.service.ts:81-87 | state after the call is `Session.Disconnect` of the old state; on return the adapter is disconnected and the client inactive |
| `Service.WebSocketService.OnConnect` | src/app/service/websocket.service.ts:29-57 | state after the callback is `Session.OnConnect` of the old state, and the invariant is kept |
| `Service.WebSocketService.OnDisconnect` | src/app/service/websocket.service.ts:59-64 | state after the callback is `Session.OnDisconnect` of the old state, and the invariant is kept |
| `Service.WebSocketService.OnProgressMessage` | src/app/service/websocket.service.ts:34-45 | only the progress field may change, and it ends as `Session.OnProgressMessage` says |
| `Service.WebSocketService.OnErrorMessage` | src/app/service/websocket.service.ts:48-50 | only the error log may change, and it ends as `Session.OnErrorMessage` says |
| `Service.WebSocketService.OnMp3Message` | src/app/service/websocket.service.ts:53-55 | only the download URL may change, and it ends as `Session.OnMp3Message` says |

## Left out

- The STOMP client itself: the broker URL `ws://localhost:8080/ws`, the 5000 ms reconnect delay, the 4000 ms heartbeats and the wire protocol are network I/O. `FakeClient` replaces the client. Its activation and deactivation take effect at once, and it accepts every publication, including one made while the underlying socket has dropped.
- The transport contract is assumed, not modelled: `onConnect` fires only while the client is active. `WebSocketService.OnConnect` requires `client.active`, and the trace lemmas require `Feasible`. `onDisconnect` and frames may arrive at any time.
- `NgZone.run` is an Angular change-detection hook. Its callback is taken to run immediately.
- The `console.log` and `console.error` diagnostics, including the one logged when `startConversion` is refused.
- RxJS subjects beyond two things: the latest value of each BehaviorSubject, and the emission log of the error Subject. The public `$` observables are those same values.
- The real float semantics of `JSON.parse`, `Number` and `Number.isFinite`. The model takes the decoded `ProgressPayload` as input and does not derive it from the body text, except for the empty body (`Decoders.EmptyBody`).
- Subscription objects and their ids. Frames are not tied to a live subscription: the handlers can be called at any time, and they do not depend on it.
- The home and root components (signals, the loading toggle, the blob download and file naming), the Angular module and the router configuration. They are UI and wiring, not the adapter.
- `Traces.PublicationsComeFromConversions`: states an upper bound (no publication without a matching conversion request) over a whole trace. The exact rule, one publication per request made while connected, is stated per step by `Session.StartConversion`.
