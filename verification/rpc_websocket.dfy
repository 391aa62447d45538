/**
 * The RPC websocket connection (`InfuraRpcWebSocket`): a connection state
 * with a notifying setter, a lazily created socket, a send that is gated on
 * `Connected`, the mapping of the socket library's lifecycle events onto
 * states, and the classification of incoming JSON-RPC payloads.
 *
 * The socket library's event stream becomes the closed datatype `Event`
 * fed to `OnEvent`; its payload stream is fed to `OnResponse`. The socket
 * handle is the flag `created`; what it transmits and what the listener
 * receives are ghost logs.
 */
module RpcWebSocket {
  import opened Wrappers

  /** Why the connection is down. `Thrown` stands for the throwable a failed connection carries. */
  datatype DisconnectError = NotStarted | SocketDisconnected(reason: string) | Thrown(cause: string)

  datatype WebSocketState = Disconnected(error: DisconnectError) | Connecting | Connected

  datatype ShutdownReason = ShutdownReason(code: int, reason: string)

  /** The socket's own events. */
  datatype WebSocketEvent =
    | OnConnectionOpened
    | OnMessageReceived(message: string)
    | OnConnectionClosing(closingReason: ShutdownReason)
    | OnConnectionClosed(shutdownReason: ShutdownReason)
    | OnConnectionFailed(throwable: string)

  /** Everything the socket library reports on its event stream. */
  datatype Event =
    | OnWebSocket(event: WebSocketEvent)
    | OnWebSocketTerminate
    | OnStateChange
    | OnRetry
    | OnLifecycle

  /** An outgoing JSON-RPC request envelope. */
  datatype JsonRpc = JsonRpc(id: int, methodName: string, params: seq<string>)

  /** An incoming payload, every field of which may be absent. */
  datatype RpcGeneralResponse = RpcGeneralResponse(
    id: Option<int>, result: Option<string>, error: Option<string>,
    methodName: Option<string>, params: Option<string>)

  datatype RpcResponse = RpcResponse(id: int, result: Option<string>, error: Option<string>)

  datatype RpcSubscriptionResponse = RpcSubscriptionResponse(methodName: string, params: string)

  /** What an incoming payload is taken for. */
  datatype Classified =
    | CorrelatedResponse(response: RpcResponse)
    | SubscriptionEvent(subscription: RpcSubscriptionResponse)
    | Unknown

  /** A call on the connection's listener. */
  datatype ListenerCall =
    | DidUpdate(state: WebSocketState)
    | DidReceiveResponse(response: RpcResponse)
    | DidReceiveSubscription(subscription: RpcSubscriptionResponse)

  datatype SocketError = NotConnected

  datatype SendOutcome = Sent | SendFailed(error: SocketError)

  const SubscriptionMethod := "eth_subscription"

  /**
   * Classify a payload. A present id makes a correlated response whatever the
   * method; otherwise an `eth_subscription` method with parameters makes a
   * subscription event; everything else is unknown. The three are exclusive.
   */
  function Classify(r: RpcGeneralResponse): (c: Classified)
    ensures c.CorrelatedResponse? <==> r.id.Some?
    ensures c.CorrelatedResponse? ==> c.response == RpcResponse(r.id.value, r.result, r.error)
    ensures c.SubscriptionEvent? <==> r.id.None? && r.methodName == Some(SubscriptionMethod) && r.params.Some?
    ensures c.SubscriptionEvent? ==> c.subscription == RpcSubscriptionResponse(SubscriptionMethod, r.params.value)
    ensures c.Unknown? <==> r.id.None? && (r.methodName != Some(SubscriptionMethod) || r.params.None?)
  {
    if r.id.Some? then
      CorrelatedResponse(RpcResponse(r.id.value, r.result, r.error))
    else if r.methodName == Some(SubscriptionMethod) && r.params.Some? then
      SubscriptionEvent(RpcSubscriptionResponse(r.methodName.value, r.params.value))
    else
      Unknown
  }

  /** The listener calls one payload causes: one for a response or a subscription event, none otherwise. */
  function Delivery(c: Classified): (calls: seq<ListenerCall>)
    ensures |calls| <= 1
    ensures calls == [] <==> c.Unknown?
    ensures c.CorrelatedResponse? ==> calls == [DidReceiveResponse(c.response)]
    ensures c.SubscriptionEvent? ==> calls == [DidReceiveSubscription(c.subscription)]
  {
    match c
    case CorrelatedResponse(response) => [DidReceiveResponse(response)]
    case SubscriptionEvent(subscription) => [DidReceiveSubscription(subscription)]
    case Unknown => []
  }

  class InfuraRpcWebSocket {
    var state: WebSocketState
    var created: bool
    ghost var socketsCreated: nat
    ghost var sent: seq<JsonRpc>
    ghost var calls: seq<ListenerCall>

    /** At most one socket ever exists, and the connection can only be up once it does. */
    ghost predicate Valid()
      reads this
    {
      && socketsCreated == (if created then 1 else 0)
      && (state == Connected ==> created)
    }

    constructor ()
      ensures Valid()
      ensures state == Disconnected(NotStarted) && !created
      ensures sent == [] && calls == []
    {
      state := Disconnected(NotStarted);
      created := false;
      socketsCreated := 0;
      sent, calls := [], [];
    }

    /** The `state` setter: every assignment reaches the listener, equal value or not. */
    method SetState(value: WebSocketState)
      modifies this`state, this`calls
      ensures state == value
      ensures calls == old(calls) + [DidUpdate(value)]
    {
      state := value;
      calls := calls + [DidUpdate(value)];
    }

    /** `connect`: create the socket (and subscribe to its streams) only if none exists yet. */
    method Connect()
      requires Valid()
      modifies this`created, this`socketsCreated
      ensures Valid()
      ensures created && socketsCreated == 1
      ensures old(created) ==> socketsCreated == old(socketsCreated)
    {
      if !created {
        created := true;
        socketsCreated := socketsCreated + 1;
      }
    }

    /** `start`: go to `Connecting` whatever the current state, then make sure the one socket exists. */
    method Start()
      requires Valid()
      modifies this
      ensures Valid()
      ensures state == Connecting
      ensures calls == old(calls) + [DidUpdate(Connecting)]
      ensures created && socketsCreated == 1
      ensures sent == old(sent)
    {
      SetState(Connecting);
      Connect();
    }

    /** `stop`: closing is left to the host's lifecycle, so nothing changes. */
    method Stop()
      requires Valid()
      ensures Valid()
      ensures state == old(state) && created == old(created)
      ensures sent == old(sent) && calls == old(calls)
    {
      Disconnect();
    }

    /** `disconnect`: the host's lifecycle closes the socket on its own, so there is nothing to do here. */
    method Disconnect()
      requires Valid()
      ensures Valid()
      ensures state == old(state) && created == old(created)
    {
    }

    /** `send`: refuse with `NotConnected`, transmitting nothing, unless `Connected`; then forward the request unchanged. */
    method Send(rpc: JsonRpc) returns (outcome: SendOutcome)
      requires Valid()
      modifies this`sent
      ensures Valid()
      ensures state != Connected ==> outcome == SendFailed(NotConnected) && sent == old(sent)
      ensures state == Connected ==> outcome == Sent && sent == old(sent) + [rpc]
    {
      if state != Connected {
        return SendFailed(NotConnected);
      }
      if created {
        sent := sent + [rpc];
      }
      outcome := Sent;
    }

    /**
     * One lifecycle event from the socket's event stream (which exists only
     * once the socket does). Opened, closed and failed set the state; every
     * other event leaves state and listener alone.
     */
    method OnEvent(e: Event)
      requires Valid() && created
      modifies this`state, this`calls
      ensures Valid()
      ensures e == OnWebSocket(OnConnectionOpened) ==>
        state == Connected && calls == old(calls) + [DidUpdate(Connected)]
      ensures e.OnWebSocket? && e.event.OnConnectionClosed? ==>
        var s := Disconnected(SocketDisconnected(e.event.shutdownReason.reason));
        state == s && calls == old(calls) + [DidUpdate(s)]
      ensures e.OnWebSocket? && e.event.OnConnectionFailed? ==>
        var s := Disconnected(Thrown(e.event.throwable));
        state == s && calls == old(calls) + [DidUpdate(s)]
      ensures !(e.OnWebSocket? && (e.event.OnConnectionOpened? || e.event.OnConnectionClosed? || e.event.OnConnectionFailed?)) ==>
        state == old(state) && calls == old(calls)
    {
      match e {
        case OnWebSocket(event) =>
          match event {
            case OnConnectionOpened =>
              SetState(Connected);
            case OnMessageReceived(_) =>
            case OnConnectionClosing(_) =>
            case OnConnectionClosed(shutdownReason) =>
              SetState(Disconnected(SocketDisconnected(shutdownReason.reason)));
            case OnConnectionFailed(throwable) =>
              SetState(Disconnected(Thrown(throwable)));
          }
        case OnWebSocketTerminate =>
        case OnStateChange =>
        case OnRetry =>
        case OnLifecycle =>
      }
    }

    /**
     * One payload from the socket's response stream (which exists only once
     * the socket does): at most one listener
     * call, chosen by `Classify`; an unknown payload is dropped. A failure
     * inside the listener is caught here, so nothing propagates.
     */
    method OnResponse(r: RpcGeneralResponse)
      requires Valid() && created
      modifies this`calls
      ensures Valid()
      ensures calls == old(calls) + Delivery(Classify(r))
      ensures |calls| <= |old(calls)| + 1
    {
      calls := calls + Delivery(Classify(r));
    }
  }
}
