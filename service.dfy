/**
 * The session adapter `WebSocketService`: a class whose methods and
 * callbacks update its fields in place, owning a transport client.  The
 * client is a fake that records every request; each method of the adapter
 * is proved to take the state to exactly what the matching function of
 * module Session says.
 */
module Service {
  import opened Wrappers
  import Decoders
  import Session
  import Traces

  /** A stand-in for the STOMP client: an activity flag and a log of requests. */
  class FakeClient {
    var active: bool
    var calls: seq<Session.Call>

    constructor ()
      ensures !active && calls == []
    {
      active := false;
      calls := [];
    }

    method Activate()
      modifies this
      ensures active && calls == old(calls) + [Session.Activation]
    {
      active := true;
      calls := calls + [Session.Activation];
    }

    method Deactivate()
      modifies this
      ensures !active && calls == old(calls) + [Session.Deactivation]
    {
      active := false;
      calls := calls + [Session.Deactivation];
    }

    method Subscribe(destination: string, handler: Session.Handler)
      modifies this
      ensures active == old(active) && calls == old(calls) + [Session.Subscription(destination, handler)]
    {
      calls := calls + [Session.Subscription(destination, handler)];
    }

    method Publish(destination: string, body: string)
      modifies this
      ensures active == old(active) && calls == old(calls) + [Session.Publication(destination, body)]
    {
      calls := calls + [Session.Publication(destination, body)];
    }
  }

  class WebSocketService {
    const client: FakeClient
    var connected: bool
    /** Latest value of the progress stream. */
    var progress: Option<real>
    /** Latest value of the download URL stream. */
    var downloadUrl: Option<string>
    /** Latest value of the connected stream. */
    var connectedLatest: bool
    /** Every value emitted on the error stream, in order. */
    var errors: seq<string>

    function State(): Session.State
      reads this, client
    {
      Session.State(connected, progress, downloadUrl, connectedLatest, errors, client.active, client.calls)
    }

    ghost predicate Valid()
      reads this, client
    {
      Session.Inv(State())
    }

    constructor ()
      ensures Valid() && fresh(client)
      ensures State() == Session.Initial
    {
      client := new FakeClient();
      connected := false;
      progress := None;
      downloadUrl := None;
      connectedLatest := false;
      errors := [];
    }

    method Connect()
      requires Valid()
      modifies client
      ensures Valid()
      ensures State() == Session.Connect(old(State()))
      ensures old(connected) || old(client.active) ==> unchanged(client)
    {
      Traces.StepKeepsInv(State(), Session.ConnectRequested);
      if connected || client.active {
        return;
      }
      client.Activate();
    }

    method StartConversion(url: string)
      requires Valid()
      modifies client
      ensures Valid()
      ensures State() == Session.StartConversion(old(State()), url)
      ensures !old(connected) ==> unchanged(client)
    {
      Traces.StepKeepsInv(State(), Session.ConversionRequested(url));
      if !connected {
        return;
      }
      client.Publish(Session.DownloadDestination, url);
    }

    method Disconnect()
      requires Valid()
      modifies this, client
      ensures Valid()
      ensures State() == Session.Disconnect(old(State()))
      ensures !connected && !connectedLatest && !client.active
    {
      Traces.StepKeepsInv(State(), Session.DisconnectRequested);
      if client.active {
        client.Deactivate();
        connected := false;
        connectedLatest := false;
      }
    }

    /** The transport's `onConnect` callback; the transport fires it only while active. */
    method OnConnect()
      requires Valid() && client.active
      modifies this, client
      ensures Valid()
      ensures State() == Session.OnConnect(old(State()))
    {
      ghost var before := State();
      Traces.StepKeepsInv(before, Session.TransportConnected);
      connected := true;
      connectedLatest := true;
      client.Subscribe(Session.ProgressQueue, Session.ProgressHandler);
      client.Subscribe(Session.ErrorQueue, Session.ErrorHandler);
      client.Subscribe(Session.Mp3Queue, Session.Mp3Handler);
      assert State() == Session.Apply(before, Session.TransportConnected);
    }

    /** The transport's `onDisconnect` callback. */
    method OnDisconnect()
      requires Valid()
      modifies this
      ensures Valid()
      ensures State() == Session.OnDisconnect(old(State()))
    {
      connected := false;
      connectedLatest := false;
    }

    /** The `/queue/progress` handler. */
    method OnProgressMessage(payload: Decoders.ProgressPayload)
      requires Valid()
      modifies this`progress
      ensures Valid()
      ensures State() == Session.OnProgressMessage(old(State()), payload)
    {
      var value := Decoders.Candidate(payload);
      if value.Finite? {
        progress := Some(value.value);
      }
    }

    /** The `/queue/error` handler. */
    method OnErrorMessage(body: string)
      requires Valid()
      modifies this`errors
      ensures Valid()
      ensures State() == Session.OnErrorMessage(old(State()), body)
    {
      errors := errors + [body];
    }

    /** The `/queue/mp3` handler. */
    method OnMp3Message(body: string)
      requires Valid()
      modifies this`downloadUrl
      ensures Valid()
      ensures State() == Session.OnMp3Message(old(State()), body)
    {
      downloadUrl := Decoders.DownloadUrlOf(body);
    }
  }

  /** A client of the adapter: one session, with what it can conclude from the contracts alone. */
  method ExampleSession()
  {
    var ws := new WebSocketService();
    ws.StartConversion("https://example.org/v");
    assert ws.client.calls == [];

    ws.Connect();
    ws.Connect();
    assert ws.client.calls == [Session.Activation];
    assert !ws.connected;

    ws.OnConnect();
    assert ws.connected && ws.connectedLatest;
    ws.StartConversion("https://example.org/v");
    assert ws.client.calls[4] == Session.Publication("/app/download", "https://example.org/v");

    ws.OnProgressMessage(Decoders.ParsedNumber(Decoders.Finite(42.0)));
    assert ws.progress == Some(42.0);
    ws.OnProgressMessage(Decoders.ParsedOther(Decoders.Finite(17.5)));
    assert ws.progress == Some(17.5);
    ws.OnProgressMessage(Decoders.Unparseable(Decoders.NonFinite));
    assert ws.progress == Some(17.5);

    ws.OnErrorMessage("conversion failed: unsupported format");
    assert ws.errors == ["conversion failed: unsupported format"];
    assert ws.progress == Some(17.5) && ws.downloadUrl == None;

    ws.OnMp3Message("");
    assert ws.downloadUrl == None;
    ws.OnMp3Message("abc.mp3");
    assert ws.downloadUrl == Some("abc.mp3");

    ws.StartConversion("https://example.org/w");
    assert ws.progress == Some(17.5) && ws.downloadUrl == Some("abc.mp3");

    ws.OnDisconnect();
    assert !ws.connected && ws.downloadUrl == Some("abc.mp3");
    ws.Disconnect();
    assert !ws.connected && !ws.client.active;
  }
}
