/**
 * Properties of the session adapter over arbitrary interleavings of caller
 * requests, transport callbacks and frames on the three queues.
 */
module Traces {
  import opened Wrappers
  import Decoders
  import opened Session

  /** Idempotent connect: a second `connect()` neither activates again nor changes anything. */
  lemma ConnectIdempotent(s: State)
    ensures Connect(Connect(s)) == Connect(s)
  {
  }

  /** `connected` becomes true only in the `onConnect` callback. */
  lemma OnlyOnConnectConnects(s: State, e: Event)
    requires !s.connected && Apply(s, e).connected
    ensures e == TransportConnected
  {
  }

  /** Under the invariant, `disconnect()` always leaves the adapter disconnected and the client inactive. */
  lemma DisconnectLeavesDisconnected(s: State)
    requires Inv(s)
    ensures !Disconnect(s).connected && !Disconnect(s).connectedLatest && !Disconnect(s).active
  {
  }

  /** The lifecycle calls of a concatenation are those of its parts. */
  lemma {:induction false} LifecycleAppend(xs: seq<Call>, ys: seq<Call>)
    ensures Lifecycle(xs + ys) == Lifecycle(xs) + Lifecycle(ys)
    decreases |ys|
  {
    if ys == [] {
      assert xs + ys == xs;
    } else {
      var init := ys[..|ys| - 1];
      assert (xs + ys)[..|xs + ys| - 1] == xs + init;
      LifecycleAppend(xs, init);
    }
  }

  /** A single call is a lifecycle call or not. */
  lemma LifecycleSingleton(c: Call)
    ensures Lifecycle([c]) == if IsLifecycleCall(c) then [c] else []
  {
    assert [c][..0] == [];
  }

  /** Appending one lifecycle call `c` that the state's activity calls for keeps the alternation. */
  lemma AppendToggle(s: State, c: Call)
    requires Inv(s) && c == (if s.active then Deactivation else Activation)
    ensures Alternates(Lifecycle(s.calls + [c])) && |Lifecycle(s.calls + [c])| == |Lifecycle(s.calls)| + 1
  {
    LifecycleAppend(s.calls, [c]);
    LifecycleSingleton(c);
  }

  /** `connect()` keeps the invariant. */
  lemma ConnectKeepsInv(s: State)
    requires Inv(s)
    ensures Inv(Connect(s))
  {
    if !s.connected && !s.active {
      AppendToggle(s, Activation);
    }
  }

  /** `disconnect()` keeps the invariant. */
  lemma DisconnectKeepsInv(s: State)
    requires Inv(s)
    ensures Inv(Disconnect(s))
  {
    if s.active {
      AppendToggle(s, Deactivation);
    }
  }

  /** `startConversion(url)` keeps the invariant. */
  lemma StartConversionKeepsInv(s: State, url: string)
    requires Inv(s)
    ensures Inv(StartConversion(s, url))
  {
    if s.connected {
      var c := Publication(DownloadDestination, url);
      LifecycleAppend(s.calls, [c]);
      LifecycleSingleton(c);
    }
  }

  /** `onConnect`, fired while the client is active, keeps the invariant. */
  lemma OnConnectKeepsInv(s: State)
    requires Inv(s) && s.active
    ensures Inv(OnConnect(s))
  {
    var p, m, u := Subscription(ProgressQueue, ProgressHandler), Subscription(ErrorQueue, ErrorHandler),
                   Subscription(Mp3Queue, Mp3Handler);
    assert OnConnect(s).calls == s.calls + [p] + [m] + [u];
    LifecycleAppend(s.calls, [p]);
    LifecycleAppend(s.calls + [p], [m]);
    LifecycleAppend(s.calls + [p] + [m], [u]);
    LifecycleSingleton(p);
    LifecycleSingleton(m);
    LifecycleSingleton(u);
  }

  /** Every event the transport can deliver keeps the invariant. */
  lemma StepKeepsInv(s: State, e: Event)
    requires Inv(s) && Enabled(s, e)
    ensures Inv(Apply(s, e))
  {
    match e
    case ConnectRequested => ConnectKeepsInv(s);
    case DisconnectRequested => DisconnectKeepsInv(s);
    case ConversionRequested(url) => StartConversionKeepsInv(s, url);
    case TransportConnected => OnConnectKeepsInv(s);
    case _ =>
  }

  /** The invariant holds after every feasible sequence of events. */
  lemma {:induction false} RunKeepsInv(s: State, es: seq<Event>)
    requires Inv(s) && Feasible(s, es)
    ensures Inv(Run(s, es))
    decreases |es|
  {
    if es != [] {
      RunKeepsInv(s, es[..|es| - 1]);
      StepKeepsInv(Run(s, es[..|es| - 1]), es[|es| - 1]);
    }
  }

  /** An event that can change the connection state. */
  predicate IsLinkEvent(e: Event)
  {
    e.DisconnectRequested? || e.TransportConnected? || e.TransportDisconnected?
  }

  /**
   * After a feasible sequence of events the adapter is connected exactly
   * when the last link event was the transport's `onConnect`.
   */
  lemma {:induction false} ConnectedFollowsLastLinkEvent(s: State, es: seq<Event>, i: int)
    requires Inv(s) && Feasible(s, es)
    requires 0 <= i < |es| && IsLinkEvent(es[i])
    requires forall j :: i < j < |es| ==> !IsLinkEvent(es[j])
    ensures Run(s, es).connected <==> es[i].TransportConnected?
    ensures Run(s, es).connectedLatest <==> es[i].TransportConnected?
    decreases |es|
  {
    var pre := es[..|es| - 1];
    RunKeepsInv(s, pre);
    RunKeepsInv(s, es);
    if i < |es| - 1 {
      ConnectedFollowsLastLinkEvent(s, pre, i);
    }
  }

  /** Without a link event the connection state does not change. */
  lemma {:induction false} ConnectedUnchangedWithoutLinkEvent(s: State, es: seq<Event>)
    requires forall j :: 0 <= j < |es| ==> !IsLinkEvent(es[j])
    ensures Run(s, es).connected == s.connected
    ensures Run(s, es).connectedLatest == s.connectedLatest
    decreases |es|
  {
    if es != [] {
      ConnectedUnchangedWithoutLinkEvent(s, es[..|es| - 1]);
    }
  }

  /** A progress frame whose candidate value is finite. */
  predicate IsGoodProgressFrame(e: Event)
  {
    e.ProgressFrame? && Decoders.Candidate(e.payload).Finite?
  }

  /**
   * The progress is the value of the last progress frame that decoded to a
   * finite number: no request, callback or other queue resets it.
   */
  lemma {:induction false} ProgressFollowsLastGoodFrame(s: State, es: seq<Event>, i: int)
    requires 0 <= i < |es| && IsGoodProgressFrame(es[i])
    requires forall j :: i < j < |es| ==> !IsGoodProgressFrame(es[j])
    ensures Run(s, es).progress == Some(Decoders.Candidate(es[i].payload).value)
    decreases |es|
  {
    if i < |es| - 1 {
      ProgressFollowsLastGoodFrame(s, es[..|es| - 1], i);
    }
  }

  /** Without a frame that decodes to a finite number the progress keeps its value. */
  lemma {:induction false} ProgressUnchangedWithoutGoodFrame(s: State, es: seq<Event>)
    requires forall j :: 0 <= j < |es| ==> !IsGoodProgressFrame(es[j])
    ensures Run(s, es).progress == s.progress
    decreases |es|
  {
    if es != [] {
      ProgressUnchangedWithoutGoodFrame(s, es[..|es| - 1]);
    }
  }

  /** The download URL is the normalised body of the last mp3 frame. */
  lemma {:induction false} DownloadUrlFollowsLastMp3Frame(s: State, es: seq<Event>, i: int)
    requires 0 <= i < |es| && es[i].Mp3Frame?
    requires forall j :: i < j < |es| ==> !es[j].Mp3Frame?
    ensures Run(s, es).downloadUrl == Decoders.DownloadUrlOf(es[i].body)
    decreases |es|
  {
    if i < |es| - 1 {
      DownloadUrlFollowsLastMp3Frame(s, es[..|es| - 1], i);
    }
  }

  /** Without an mp3 frame the download URL keeps its value. */
  lemma {:induction false} DownloadUrlUnchangedWithoutMp3Frame(s: State, es: seq<Event>)
    requires forall j :: 0 <= j < |es| ==> !es[j].Mp3Frame?
    ensures Run(s, es).downloadUrl == s.downloadUrl
    decreases |es|
  {
    if es != [] {
      DownloadUrlUnchangedWithoutMp3Frame(s, es[..|es| - 1]);
    }
  }

  /** The bodies of the error frames of `es`, in order. */
  function ErrorBodies(es: seq<Event>): seq<string>
    decreases |es|
  {
    if es == [] then []
    else ErrorBodies(es[..|es| - 1]) + (if es[|es| - 1].ErrorFrame? then [es[|es| - 1].body] else [])
  }

  /** The error stream emits exactly the error frame bodies, verbatim and in order. */
  lemma {:induction false} ErrorsAreFrameBodies(s: State, es: seq<Event>)
    ensures Run(s, es).errors == s.errors + ErrorBodies(es)
    decreases |es|
  {
    if es != [] {
      ErrorsAreFrameBodies(s, es[..|es| - 1]);
    }
  }

  /** Appending a call other than `x` leaves the number of occurrences of `x` unchanged. */
  lemma AppendOther(calls: seq<Call>, c: Call, x: Call)
    requires c != x
    ensures CountOf(calls + [c], x) == CountOf(calls, x)
  {
    assert multiset(calls + [c]) == multiset(calls) + multiset{c};
  }

  /**
   * `onConnect` adds one subscription of each of the three queues, with the
   * queue's own handler, and none of any other destination or handler.
   */
  lemma OnConnectSubscribesOnce(r: State, q: string, h: Handler)
    ensures CountOf(OnConnect(r).calls, Subscription(q, h)) ==
            CountOf(r.calls, Subscription(q, h)) + (if HandlerOf(q) == Some(h) then 1 else 0)
  {
    var added := [Subscription(ProgressQueue, ProgressHandler),
                  Subscription(ErrorQueue, ErrorHandler),
                  Subscription(Mp3Queue, Mp3Handler)];
    assert multiset(OnConnect(r).calls) == multiset(r.calls) + multiset(added);
    if q == ProgressQueue {
    } else if q == ErrorQueue {
    } else if q == Mp3Queue {
    } else {
      assert Subscription(q, h) !in added;
    }
  }

  /** One event adds a subscription of `q` with `h` exactly when it is `onConnect` and `h` is the handler of `q`. */
  lemma StepSubscriptions(r: State, e: Event, q: string, h: Handler)
    ensures CountOf(Apply(r, e).calls, Subscription(q, h)) ==
            CountOf(r.calls, Subscription(q, h)) + (if e.TransportConnected? && HandlerOf(q) == Some(h) then 1 else 0)
  {
    match e
    case TransportConnected =>
      OnConnectSubscribesOnce(r, q, h);
    case ConnectRequested =>
      AppendOther(r.calls, Activation, Subscription(q, h));
    case ConversionRequested(url) =>
      AppendOther(r.calls, Publication(DownloadDestination, url), Subscription(q, h));
    case DisconnectRequested =>
      AppendOther(r.calls, Deactivation, Subscription(q, h));
    case _ =>
  }

  /**
   * Each of the three queues is subscribed, with its own handler, once per
   * `onConnect` and never otherwise; no other destination is ever
   * subscribed, and no queue with another queue's handler.
   */
  lemma {:induction false} SubscriptionsPerConnect(s: State, es: seq<Event>, q: string, h: Handler)
    ensures CountOf(Run(s, es).calls, Subscription(q, h)) ==
            CountOf(s.calls, Subscription(q, h)) + (if HandlerOf(q) == Some(h) then multiset(es)[TransportConnected] else 0)
    decreases |es|
  {
    if es != [] {
      var pre, e := es[..|es| - 1], es[|es| - 1];
      assert es == pre + [e];
      SubscriptionsPerConnect(s, pre, q, h);
      StepSubscriptions(Run(s, pre), e, q, h);
    }
  }

  /** One event adds a publication only when it is a conversion request for that body, to the download destination. */
  lemma StepPublications(r: State, e: Event, d: string, b: string)
    ensures CountOf(Apply(r, e).calls, Publication(d, b)) <=
            CountOf(r.calls, Publication(d, b)) + (if d == DownloadDestination && e == ConversionRequested(b) then 1 else 0)
  {
    var x := Publication(d, b);
    match e
    case ConversionRequested(url) =>
      var c := Publication(DownloadDestination, url);
      if c != x {
        AppendOther(r.calls, c, x);
      }
    case TransportConnected =>
      var p, m, u := Subscription(ProgressQueue, ProgressHandler), Subscription(ErrorQueue, ErrorHandler),
                     Subscription(Mp3Queue, Mp3Handler);
      AppendOther(r.calls, p, x);
      AppendOther(r.calls + [p], m, x);
      AppendOther(r.calls + [p] + [m], u, x);
      assert OnConnect(r).calls == r.calls + [p] + [m] + [u];
    case ConnectRequested =>
      AppendOther(r.calls, Activation, x);
    case DisconnectRequested =>
      AppendOther(r.calls, Deactivation, x);
    case _ =>
  }

  /**
   * Every publication goes to the download destination and carries the URL
   * of a conversion request: there are never more publications of a body
   * than requests to convert it.
   */
  lemma {:induction false} PublicationsComeFromConversions(s: State, es: seq<Event>, d: string, b: string)
    ensures CountOf(Run(s, es).calls, Publication(d, b)) <=
            CountOf(s.calls, Publication(d, b)) + (if d == DownloadDestination then multiset(es)[ConversionRequested(b)] else 0)
    decreases |es|
  {
    if es != [] {
      var pre, e := es[..|es| - 1], es[|es| - 1];
      assert es == pre + [e];
      PublicationsComeFromConversions(s, pre, d, b);
      StepPublications(Run(s, pre), e, d, b);
    }
  }
}
