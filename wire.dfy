/**
 The messages that travel over the price service's streaming channel, and the
 client's handling of one inbound frame (`onMessage` in src/index.ts).

 An inbound frame is modelled as the value that `JSON.parse` produced from it:
 the text itself and parse failures are not part of this model.
 */
module Wire {

  import opened Wrappers

  /** A decoded JSON value. */
  datatype Json =
    | JNull
    | JBool(b: bool)
    | JNum(n: real)
    | JStr(s: string)
    | JArr(items: seq<Json>)
    | JObj(fields: map<string, Json>)

  /** The `Message` envelope the client builds for outbound frames. */
  datatype Message = Message(topic: string, payload: Json)

  /** What the client reports through `websocket.error`. */
  datatype Failure =
    | TopicOfNull               // reading `.topic` of a frame that decoded to `null` throws a TypeError
    | ListenerFailure(reason: string)  // a `price/updated` listener threw
    | SocketFailure(detail: string)    // the socket's own `error` event

  /** One call of `emit` on the client, with the argument it carried. */
  datatype Emission =
    | WebsocketOpen
    | WebsocketMessage(frame: Json)
    | PriceUpdated(frame: Json)
    | WebsocketError(failure: Failure)

  const PriceUpdatedTopic: string := "price/updated"

  /** The frame sent on every `open`: subscribe to the `price/updated` topic. */
  const SubscribeMessage: Message :=
    Message("subscribe", JObj(map["topics" := JArr([JStr(PriceUpdatedTopic)])]))

  /**
   The value of `data.topic === 'price/updated'`, or None where evaluating it
   throws. Only `null` throws: any other non-object value, an array, or an object
   without that field yields `undefined`, which is not the topic.
   */
  function TopicIsPriceUpdated(frame: Json): (r: Option<bool>)
    ensures r.None? <==> frame == JNull
    ensures r == Some(true) <==>
              frame.JObj? && "topic" in frame.fields && frame.fields["topic"] == JStr(PriceUpdatedTopic)
  {
    match frame
    case JNull => None
    case JObj(fields) =>
      Some("topic" in fields && fields["topic"] == JStr(PriceUpdatedTopic))
    case _ => Some(false)
  }

  /** The frame is an object whose `topic` field is the string `price/updated`. */
  predicate IsPriceUpdate(frame: Json): (b: bool)
    ensures b <==> frame.JObj? && "topic" in frame.fields && frame.fields["topic"] == JStr(PriceUpdatedTopic)
  {
    TopicIsPriceUpdated(frame) == Some(true)
  }

  /**
   The emissions of the `try { this.onMessage(message) } catch …` block of the
   socket's `message` handler. `listenerFault` is what a `price/updated`
   listener throws, if it throws: emit then propagates it to the catch.
   */
  function Dispatch(frame: Json, listenerFault: Option<string>): (r: seq<Emission>)
    ensures (|r| > 0 && r[0] == PriceUpdated(frame)) <==> IsPriceUpdate(frame)
    ensures forall i | 0 <= i < |r| :: r[i].PriceUpdated? ==> i == 0 && r[i].frame == frame
    ensures forall i | 0 <= i < |r| :: !r[i].WebsocketMessage? && !r[i].WebsocketOpen?
    ensures frame == JNull ==> r == [WebsocketError(TopicOfNull)]
    ensures frame != JNull && !IsPriceUpdate(frame) ==> r == []
    ensures IsPriceUpdate(frame) && listenerFault.None? ==> r == [PriceUpdated(frame)]
    ensures IsPriceUpdate(frame) && listenerFault.Some? ==>
              r == [PriceUpdated(frame), WebsocketError(ListenerFailure(listenerFault.value))]
  {
    match TopicIsPriceUpdated(frame)
    case None => [WebsocketError(TopicOfNull)]
    case Some(false) => []
    case Some(true) =>
      [PriceUpdated(frame)] +
      (match listenerFault
       case None => []
       case Some(reason) => [WebsocketError(ListenerFailure(reason))])
  }

  /**
   In an emission log, every `price/updated` emission directly follows the
   `websocket.message` emission of the same frame, and every
   `websocket.message` of a price frame is directly followed by its
   `price/updated` emission.
   */
  predicate UpdatesPairedWithMessages(log: seq<Emission>)
  {
    && (forall i | 0 <= i < |log| && log[i].PriceUpdated? ::
          0 < i && log[i - 1] == WebsocketMessage(log[i].frame) && IsPriceUpdate(log[i].frame))
    && (forall i | 0 <= i < |log| && log[i].WebsocketMessage? && IsPriceUpdate(log[i].frame) ::
          i + 1 < |log| && log[i + 1] == PriceUpdated(log[i].frame))
  }

  /**
   The emissions of the whole `message` handler for one decoded frame:
   `websocket.message` first, then `price/updated` exactly when the topic says so.
   */
  function Receive(frame: Json, listenerFault: Option<string>): (r: seq<Emission>)
    ensures |r| > 0 && r[0] == WebsocketMessage(frame)
    ensures |r| > 1 && r[1].PriceUpdated? <==> IsPriceUpdate(frame)
    ensures forall i | 0 <= i < |r| :: r[i].PriceUpdated? ==> i == 1 && r[i].frame == frame
    ensures forall i | 1 <= i < |r| :: !r[i].WebsocketMessage?
    ensures UpdatesPairedWithMessages(r)
    ensures frame != JNull && !IsPriceUpdate(frame) ==> r == [WebsocketMessage(frame)]
    ensures IsPriceUpdate(frame) && listenerFault.None? ==> r == [WebsocketMessage(frame), PriceUpdated(frame)]
    ensures IsPriceUpdate(frame) && listenerFault.Some? ==>
              r == [WebsocketMessage(frame), PriceUpdated(frame), WebsocketError(ListenerFailure(listenerFault.value))]
    ensures frame == JNull ==> r == [WebsocketMessage(frame), WebsocketError(TopicOfNull)]
  {
    [WebsocketMessage(frame)] + Dispatch(frame, listenerFault)
  }
}
