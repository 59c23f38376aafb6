/**
 * The session adapter's state machine as pure functions: one function per
 * operation, callback and message handler, each taking the whole state
 * (the adapter's fields and the fake transport's) to the next.  The class
 * in module Service is proved against these functions.
 */
module Session {
  import opened Wrappers
  import Decoders

  const ProgressQueue: string := "/queue/progress"
  const ErrorQueue: string := "/queue/error"
  const Mp3Queue: string := "/queue/mp3"
  /** The one destination the adapter publishes to. */
  const DownloadDestination: string := "/app/download"
  /** The queues subscribed on every connect, in the order of subscription. */
  const Queues: seq<string> := [ProgressQueue, ErrorQueue, Mp3Queue]

  /**
   * The message handlers passed to `subscribe`: ProgressHandler is
   * OnProgressMessage, ErrorHandler is OnErrorMessage and Mp3Handler is
   * OnMp3Message.
   */
  datatype Handler = ProgressHandler | ErrorHandler | Mp3Handler

  /** The handler `onConnect` registers for a destination, if any. */
  function HandlerOf(destination: string): Option<Handler>
  {
    if destination == ProgressQueue then Some(ProgressHandler)
    else if destination == ErrorQueue then Some(ErrorHandler)
    else if destination == Mp3Queue then Some(Mp3Handler)
    else None
  }

  /** One request made of the transport client, as recorded by the fake client. */
  datatype Call =
    | Activation
    | Deactivation
    | Subscription(destination: string, handler: Handler)
    | Publication(destination: string, body: string)

  /**
   * The adapter's observable state together with the fake client's:
   *  - connected: the private `connected` flag;
   *  - progress, downloadUrl, connectedLatest: the latest values of the
   *    progress, download URL and connected BehaviorSubjects;
   *  - errors: every value emitted on the error Subject, in order;
   *  - active: the client's `active` flag;
   *  - calls: every request made of the client, in order.
   */
  datatype State = State(
    connected: bool,
    progress: Option<real>,
    downloadUrl: Option<string>,
    connectedLatest: bool,
    errors: seq<string>,
    active: bool,
    calls: seq<Call>)

  /** A freshly constructed adapter with an inactive client. */
  const Initial: State := State(false, None, None, false, [], false, [])

  /** `connect()`: activate the client unless connected or already active. */
  function Connect(s: State): (t: State)
    ensures s.connected || s.active ==> t == s
    ensures !s.connected && !s.active ==>
      t.active && !t.connected && t.calls == s.calls + [Activation]
    ensures t.(active := s.active, calls := s.calls) == s
  {
    if s.connected || s.active then s
    else s.(active := true, calls := s.calls + [Activation])
  }

  /** `startConversion(url)`: publish the URL when connected; nothing is reset. */
  function StartConversion(s: State, url: string): (t: State)
    ensures !s.connected ==> t == s
    ensures s.connected ==> t.calls == s.calls + [Publication(DownloadDestination, url)]
    ensures t.(calls := s.calls) == s
  {
    if !s.connected then s
    else s.(calls := s.calls + [Publication(DownloadDestination, url)])
  }

  /** `disconnect()`: deactivate an active client and report disconnected at once. */
  function Disconnect(s: State): (t: State)
    ensures !s.active ==> t == s
    ensures s.active ==>
      !t.active && !t.connected && !t.connectedLatest && t.calls == s.calls + [Deactivation]
    ensures t.(active := s.active, connected := s.connected,
               connectedLatest := s.connectedLatest, calls := s.calls) == s
  {
    if !s.active then s
    else s.(active := false, connected := false, connectedLatest := false,
            calls := s.calls + [Deactivation])
  }

  /** The `onConnect` callback: report connected and subscribe to the three queues. */
  function OnConnect(s: State): (t: State)
    ensures t.connected && t.connectedLatest
    ensures t.calls == s.calls + [Subscription(Queues[0], ProgressHandler),
                                  Subscription(Queues[1], ErrorHandler),
                                  Subscription(Queues[2], Mp3Handler)]
    ensures t.(connected := s.connected, connectedLatest := s.connectedLatest, calls := s.calls) == s
  {
    s.(connected := true, connectedLatest := true,
       calls := s.calls + [Subscription(ProgressQueue, ProgressHandler),
                           Subscription(ErrorQueue, ErrorHandler),
                           Subscription(Mp3Queue, Mp3Handler)])
  }

  /** The `onDisconnect` callback: report disconnected; job fields are kept. */
  function OnDisconnect(s: State): (t: State)
    ensures !t.connected && !t.connectedLatest
    ensures t.(connected := s.connected, connectedLatest := s.connectedLatest) == s
  {
    s.(connected := false, connectedLatest := false)
  }

  /** The handler of `/queue/progress`. */
  function OnProgressMessage(s: State, p: Decoders.ProgressPayload): (t: State)
    ensures Decoders.Candidate(p).Finite? ==> t.progress == Some(Decoders.Candidate(p).value)
    ensures Decoders.Candidate(p).NonFinite? ==> t == s
    ensures t.(progress := s.progress) == s
  {
    s.(progress := Decoders.NextProgress(s.progress, p))
  }

  /** The handler of `/queue/error`: emit the body verbatim. */
  function OnErrorMessage(s: State, body: string): (t: State)
    ensures t.errors == s.errors + [body]
    ensures t.(errors := s.errors) == s
  {
    s.(errors := s.errors + [body])
  }

  /** The handler of `/queue/mp3`. */
  function OnMp3Message(s: State, body: string): (t: State)
    ensures t.downloadUrl == Decoders.DownloadUrlOf(body)
    ensures t.(downloadUrl := s.downloadUrl) == s
  {
    s.(downloadUrl := Decoders.DownloadUrlOf(body))
  }

  /** Everything that can happen to the adapter: a caller's request, a transport callback or a frame. */
  datatype Event =
    | ConnectRequested
    | ConversionRequested(url: string)
    | DisconnectRequested
    | TransportConnected
    | TransportDisconnected
    | ProgressFrame(payload: Decoders.ProgressPayload)
    | ErrorFrame(body: string)
    | Mp3Frame(body: string)

  function Apply(s: State, e: Event): State
  {
    match e
    case ConnectRequested => Connect(s)
    case ConversionRequested(url) => StartConversion(s, url)
    case DisconnectRequested => Disconnect(s)
    case TransportConnected => OnConnect(s)
    case TransportDisconnected => OnDisconnect(s)
    case ProgressFrame(p) => OnProgressMessage(s, p)
    case ErrorFrame(body) => OnErrorMessage(s, body)
    case Mp3Frame(body) => OnMp3Message(s, body)
  }

  /** The state after the events `es`, in order, starting from `s`. */
  function Run(s: State, es: seq<Event>): State
    decreases |es|
  {
    if es == [] then s else Apply(Run(s, es[..|es| - 1]), es[|es| - 1])
  }

  /** The transport reports a connection only while the client is active. */
  predicate Enabled(s: State, e: Event)
  {
    e.TransportConnected? ==> s.active
  }

  /** Every event of `es` is one the transport can deliver at that point. */
  predicate Feasible(s: State, es: seq<Event>)
    decreases |es|
  {
    es == [] ||
    (Feasible(s, es[..|es| - 1]) && Enabled(Run(s, es[..|es| - 1]), es[|es| - 1]))
  }

  /** How many times `c` occurs in the call log. */
  function CountOf(calls: seq<Call>, c: Call): nat
  {
    multiset(calls)[c]
  }

  predicate IsLifecycleCall(c: Call)
  {
    c.Activation? || c.Deactivation?
  }

  /** The activations and deactivations of the call log, in order. */
  function Lifecycle(calls: seq<Call>): seq<Call>
    decreases |calls|
  {
    if calls == [] then []
    else Lifecycle(calls[..|calls| - 1]) +
         (if IsLifecycleCall(calls[|calls| - 1]) then [calls[|calls| - 1]] else [])
  }

  /** Activation, Deactivation, Activation, ... */
  predicate Alternates(ts: seq<Call>)
  {
    forall i :: 0 <= i < |ts| ==> ts[i] == (if i % 2 == 0 then Activation else Deactivation)
  }

  /**
   * The adapter's invariant: the private flag agrees with the connected
   * stream, the adapter is connected only while its client is active, and
   * the client's activations and deactivations alternate, starting with an
   * activation, the client being active exactly after an activation.
   */
  predicate Inv(s: State)
  {
    s.connected == s.connectedLatest &&
    (s.connected ==> s.active) &&
    Alternates(Lifecycle(s.calls)) &&
    (s.active <==> |Lifecycle(s.calls)| % 2 == 1)
  }
}
