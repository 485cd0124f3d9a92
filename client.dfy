/**
 The `Client` class of src/index.ts. Its fields are the source's fields plus
 the logs that stand for what it does to the outside world; each handler that
 the source registers on a socket is a method the transport calls. Every
 method is specified by the function of Lifecycle that models it.
 */
module PricesClient {

  import opened Wrappers
  import opened Wire
  import Options
  import Rest
  import Lifecycle

  class Client {
    const httpApiUrl: string
    const websocketApiUrl: string
    const token: Option<string>

    var shouldConnectSocket: bool
    var socket: Option<Lifecycle.SocketId>
    var connections: seq<Lifecycle.Connection>
    var closeRequests: seq<Lifecycle.SocketId>
    var closed: set<Lifecycle.SocketId>
    var emitted: seq<Emission>
    var sent: seq<Lifecycle.Delivery>
    var pendingReconnects: nat

    function Endpoint(): Lifecycle.Endpoint
    {
      Lifecycle.Endpoint(websocketApiUrl, token)
    }

    function State(): Lifecycle.State
      reads this
    {
      Lifecycle.State(shouldConnectSocket, socket, connections, closeRequests, closed, emitted, sent, pendingReconnects)
    }

    /** The token is never set, and the subscription state is one Lifecycle can reach. */
    ghost predicate Valid()
      reads this
    {
      token == None && Lifecycle.Valid(Endpoint(), State())
    }

    /** `new Client(options)`: URLs from the options or the defaults, no token, not subscribed. */
    constructor (options: Options.ClientOptions)
      ensures Options.Settings(httpApiUrl, websocketApiUrl, token) == Options.Resolve(options)
      ensures token == None
      ensures State() == Lifecycle.Initial()
      ensures !shouldConnectSocket && socket == None
      ensures Valid()
    {
      httpApiUrl := Options.OrElse(options.httpApiUrl, Options.DefaultHttpApiUrl);
      websocketApiUrl := Options.OrElse(options.websocketApiUrl, Options.DefaultWebsocketApiUrl);
      token := None;
      shouldConnectSocket := false;
      socket := None;
      connections, closeRequests, closed := [], [], {};
      emitted, sent := [], [];
      pendingReconnects := 0;
    }

    method SubscribeToPricesUpdates()
      requires Valid()
      modifies this
      ensures Valid()
      ensures State() == Lifecycle.Subscribed(Endpoint(), old(State()))
      ensures shouldConnectSocket && socket == Some(|old(connections)|)
      ensures connections == old(connections) + [Lifecycle.Connection(websocketApiUrl, Rest.Authorization(token))]
    {
      shouldConnectSocket := true;
      socket := Some(|connections|);
      connections := connections + [Lifecycle.Connection(websocketApiUrl, Rest.Authorization(token))];
    }

    method UnsubscribeFromPricesUpdates()
      requires Valid()
      modifies this
      ensures Valid()
      ensures State() == Lifecycle.Unsubscribed(old(State()))
      ensures !shouldConnectSocket
      ensures closeRequests == old(closeRequests) + (if old(socket).Some? then [old(socket).value] else [])
    {
      shouldConnectSocket := false;
      if socket.Some? {
        closeRequests := closeRequests + [socket.value];
      }
    }

    /** `sendMessage`: a send on the held socket, if any. */
    method SendMessage(data: Message)
      requires Valid()
      modifies this
      ensures Valid()
      ensures State() == Lifecycle.SendMessage(old(State()), data)
      ensures sent == old(sent) + (if socket.Some? then [Lifecycle.Delivery(socket.value, data)] else [])
    {
      if socket.Some? {
        sent := sent + [Lifecycle.Delivery(socket.value, data)];
      }
    }

    /** The `open` handler of socket `s`. */
    method HandleOpen(s: Lifecycle.SocketId)
      requires Valid() && Lifecycle.Live(State(), s)
      modifies this
      ensures Valid()
      ensures State() == Lifecycle.Opened(old(State()))
      ensures emitted == old(emitted) + [WebsocketOpen]
    {
      emitted := emitted + [WebsocketOpen];
      SendMessage(SubscribeMessage);
    }

    /** `onMessage`: dispatch on the frame's topic, inside the handler's `try`. */
    method OnMessage(data: Json, listenerFault: Option<string>)
      modifies this
      ensures State() == old(State()).(emitted := old(emitted) + Dispatch(data, listenerFault))
    {
      var outcome := TopicIsPriceUpdated(data);
      match outcome
      case None =>
        emitted := emitted + [WebsocketError(TopicOfNull)];
      case Some(isPrice) =>
        if isPrice {
          emitted := emitted + [PriceUpdated(data)];
          if listenerFault.Some? {
            emitted := emitted + [WebsocketError(ListenerFailure(listenerFault.value))];
          }
        }
    }

    /** The `message` handler of socket `s`, for an already decoded frame. */
    method HandleMessage(s: Lifecycle.SocketId, frame: Json, listenerFault: Option<string>)
      requires Valid() && Lifecycle.Live(State(), s)
      modifies this
      ensures Valid()
      ensures State() == Lifecycle.Received(old(State()), frame, listenerFault)
      ensures emitted == old(emitted) + Receive(frame, listenerFault)
    {
      ghost var st := State();
      emitted := emitted + [WebsocketMessage(frame)];
      OnMessage(frame, listenerFault);
      assert State() == Lifecycle.Step(Endpoint(), st, Lifecycle.Frame(s, frame, listenerFault));
      Lifecycle.StepPreservesValid(Endpoint(), st, Lifecycle.Frame(s, frame, listenerFault));
    }

    /** The `close` handler of socket `s`. */
    method HandleClose(s: Lifecycle.SocketId)
      requires Valid() && Lifecycle.Live(State(), s)
      modifies this
      ensures Valid()
      ensures State() == Lifecycle.Closed(old(State()), s)
      ensures socket == None
      ensures pendingReconnects == old(pendingReconnects) + (if old(shouldConnectSocket) then 1 else 0)
    {
      socket := None;
      closed := closed + {s};
      if shouldConnectSocket {
        pendingReconnects := pendingReconnects + 1;
      }
    }

    /** The `error` handler of socket `s`. */
    method HandleError(s: Lifecycle.SocketId, detail: string)
      requires Valid() && Lifecycle.Live(State(), s)
      modifies this
      ensures Valid()
      ensures State() == Lifecycle.Errored(old(State()), detail)
    {
      emitted := emitted + [WebsocketError(SocketFailure(detail))];
    }

    /** A scheduled reconnect fires and calls `subscribeToPricesUpdates`. */
    method FireReconnect()
      requires Valid() && pendingReconnects > 0
      modifies this
      ensures Valid()
      ensures State() == Lifecycle.ReconnectFired(Endpoint(), old(State()))
    {
      pendingReconnects := pendingReconnects - 1;
      SubscribeToPricesUpdates();
    }

    /** The request `listPrices` makes. */
    method ListPrices() returns (req: Rest.Request)
      requires Valid()
      ensures req == Rest.ListPrices(httpApiUrl, token)
      ensures req.configHeaders == Some(Rest.Headers("Bearer undefined"))
    {
      req := Rest.ListPrices(httpApiUrl, token);
    }

    /** The request `getPrice` makes. */
    method GetPrice(base: string, quote: string, source: Option<string>) returns (req: Rest.Request)
      requires Valid()
      ensures req == Rest.GetPrice(httpApiUrl, token, base, quote, source)
      ensures req.configHeaders == Some(Rest.Headers("Bearer undefined"))
    {
      req := Rest.GetPrice(httpApiUrl, token, base, quote, source);
    }

    /** The request `convertPrice` makes. */
    method ConvertPrice(params: Rest.NewConversionParams) returns (req: Rest.Request)
      requires Valid()
      ensures req == Rest.ConvertPrice(httpApiUrl, token, params)
      ensures req.data == Rest.HeadersObject(Rest.Headers("Bearer undefined")) && req.configHeaders == None
    {
      req := Rest.ConvertPrice(httpApiUrl, token, params);
    }
  }

  /**
   A default client subscribes, its socket opens, and one price frame arrives:
   one subscribe frame is sent and exactly one `price/updated` is emitted,
   carrying the frame.
   */
  method PriceUpdateScenario()
  {
    var price := JObj(map["base" := JStr("USD"), "quote" := JStr("BTC"), "value" := JNum(42000.0),
                          "source" := JStr("x"), "updated_at" := JStr("2024-01-01T00:00:00Z")]);
    var frame := JObj(map["topic" := JStr(PriceUpdatedTopic), "payload" := price]);
    var client := new Client(Options.NoOptions);
    assert client.httpApiUrl == Options.DefaultHttpApiUrl;
    assert client.websocketApiUrl == Options.DefaultWebsocketApiUrl;
    client.SubscribeToPricesUpdates();
    client.HandleOpen(0);
    assert client.sent == [Lifecycle.Delivery(0, SubscribeMessage)];
    client.HandleMessage(0, frame, None);
    assert IsPriceUpdate(frame);
    assert client.emitted == [WebsocketOpen, WebsocketMessage(frame), PriceUpdated(frame)];
    client.UnsubscribeFromPricesUpdates();
    client.HandleClose(0);
    assert client.pendingReconnects == 0 && client.closeRequests == [0];
  }
}
