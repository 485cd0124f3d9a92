/**
 The price-update subscription of a `Client` (src/index.ts) as a state machine
 over the client's fields and what it has done so far. Live sockets become
 numbered handles, the transport's callbacks become events, `emit` and `send`
 become appends to logs, and `setTimeout(…, 1000)` becomes a count of reconnects
 that are scheduled and have not fired yet.
 */
module Lifecycle {

  import opened Wrappers
  import opened Wire
  import Rest

  /** A WebSocket the client created; handles are numbered in order of creation. */
  type SocketId = nat

  /** One `new WebSocket(url, { headers: { Authorization } })`. */
  datatype Connection = Connection(url: string, authorization: string)

  /** One `socket.send(JSON.stringify(data))`, with the socket it went to. */
  datatype Delivery = Delivery(socket: SocketId, message: Message)

  /** The two settings the streaming side reads. */
  datatype Endpoint = Endpoint(websocketApiUrl: string, token: Option<string>)

  datatype State = State(
    shouldConnectSocket: bool,
    socket: Option<SocketId>,
    connections: seq<Connection>,   // every socket created, indexed by its SocketId
    closeRequests: seq<SocketId>,   // every `socket.close()` call, in order
    closed: set<SocketId>,          // sockets whose `close` event has fired
    emitted: seq<Emission>,
    sent: seq<Delivery>,
    pendingReconnects: nat)

  /** A freshly constructed client: not subscribed, no socket, nothing done. */
  function Initial(): State
  {
    State(false, None, [], [], {}, [], [], 0)
  }

  /** A socket that was created and has not closed yet. */
  predicate Live(st: State, s: SocketId)
  {
    s < |st.connections| && s !in st.closed
  }

  /** The connection every `subscribeToPricesUpdates` opens. */
  function ConnectionFor(ep: Endpoint): Connection
  {
    Connection(ep.websocketApiUrl, Rest.Authorization(ep.token))
  }

  /**
   What every reachable state satisfies: the held socket is live, every
   recorded handle names a created socket, and every socket was opened to the
   configured URL with the configured authorisation.
   */
  ghost predicate Valid(ep: Endpoint, st: State)
  {
    && (st.socket.Some? ==> Live(st, st.socket.value))
    && (forall s | s in st.closed :: s < |st.connections|)
    && (forall i | 0 <= i < |st.closeRequests| :: st.closeRequests[i] < |st.connections|)
    && (forall i | 0 <= i < |st.sent| :: st.sent[i].socket < |st.connections|)
    && (forall i | 0 <= i < |st.connections| :: st.connections[i] == ConnectionFor(ep))
    && UpdatesPairedWithMessages(st.emitted)
  }

  // ----- The client's operations and handlers -----

  /** `subscribeToPricesUpdates`: want updates, and replace the held handle by a new socket. */
  function Subscribed(ep: Endpoint, st: State): (r: State)
    ensures r.shouldConnectSocket
    ensures r.socket == Some(|st.connections|) && |r.connections| == |st.connections| + 1
    ensures r.connections == st.connections + [ConnectionFor(ep)]
    ensures r.(shouldConnectSocket := st.shouldConnectSocket, socket := st.socket, connections := st.connections) == st
    ensures Valid(ep, st) ==> Valid(ep, r) && Live(r, r.socket.value)
  {
    st.(shouldConnectSocket := true,
        socket := Some(|st.connections|),
        connections := st.connections + [ConnectionFor(ep)])
  }

  /** `unsubscribeFromPricesUpdates`: stop wanting updates; `this.socket?.close()`. */
  function Unsubscribed(st: State): (r: State)
    ensures !r.shouldConnectSocket
    ensures r.closeRequests == st.closeRequests + (if st.socket.Some? then [st.socket.value] else [])
    ensures r.(shouldConnectSocket := st.shouldConnectSocket, closeRequests := st.closeRequests) == st
  {
    match st.socket
    case None => st.(shouldConnectSocket := false)
    case Some(s) => st.(shouldConnectSocket := false, closeRequests := st.closeRequests + [s])
  }

  /** `sendMessage`: `this.socket?.send(…)`, to whichever socket is held now. */
  function SendMessage(st: State, data: Message): (r: State)
    ensures st.socket.Some? ==> r.sent == st.sent + [Delivery(st.socket.value, data)]
    ensures st.socket.None? ==> r == st
    ensures r.(sent := st.sent) == st
  {
    match st.socket
    case None => st
    case Some(s) => st.(sent := st.sent + [Delivery(s, data)])
  }

  /** The `open` handler: emit `websocket.open`, then send the subscribe frame. */
  function Opened(st: State): (r: State)
    ensures r.emitted == st.emitted + [WebsocketOpen]
    ensures r.sent == st.sent + (if st.socket.Some? then [Delivery(st.socket.value, SubscribeMessage)] else [])
    ensures r.(emitted := st.emitted, sent := st.sent) == st
  {
    SendMessage(st.(emitted := st.emitted + [WebsocketOpen]), SubscribeMessage)
  }

  /** The `message` handler, for an already decoded frame. */
  function Received(st: State, frame: Json, listenerFault: Option<string>): (r: State)
    ensures |r.emitted| > |st.emitted| && r.emitted[|st.emitted|] == WebsocketMessage(frame)
    ensures r.emitted[..|st.emitted|] == st.emitted
    ensures UpdatesPairedWithMessages(st.emitted) ==> UpdatesPairedWithMessages(r.emitted)
    ensures r.emitted == st.emitted + Receive(frame, listenerFault)
    ensures r.(emitted := st.emitted) == st
  {
    st.(emitted := st.emitted + Receive(frame, listenerFault))
  }

  /**
   The `close` handler of socket `s`: drop the held handle, whichever socket it
   is, and schedule one reconnect if updates are still wanted.
   */
  function Closed(st: State, s: SocketId): (r: State)
    ensures r.socket == None && s in r.closed
    ensures st.shouldConnectSocket ==> r.pendingReconnects == st.pendingReconnects + 1
    ensures !st.shouldConnectSocket ==> r.pendingReconnects == st.pendingReconnects
    ensures r.(socket := st.socket, closed := st.closed, pendingReconnects := st.pendingReconnects) == st
  {
    st.(socket := None,
        closed := st.closed + {s},
        pendingReconnects := if st.shouldConnectSocket then st.pendingReconnects + 1 else st.pendingReconnects)
  }

  /** The `error` handler: emit `websocket.error`. */
  function Errored(st: State, detail: string): (r: State)
    ensures r.emitted == st.emitted + [WebsocketError(SocketFailure(detail))]
    ensures r.(emitted := st.emitted) == st
  {
    st.(emitted := st.emitted + [WebsocketError(SocketFailure(detail))])
  }

  /** A scheduled reconnect fires: it calls `subscribeToPricesUpdates` again, unconditionally. */
  function ReconnectFired(ep: Endpoint, st: State): (r: State)
    requires st.pendingReconnects > 0
    ensures r.pendingReconnects == st.pendingReconnects - 1
    ensures r.shouldConnectSocket && r.socket == Some(|st.connections|)
    ensures r.connections == st.connections + [ConnectionFor(ep)]
    ensures r.(shouldConnectSocket := st.shouldConnectSocket, socket := st.socket, connections := st.connections,
               pendingReconnects := st.pendingReconnects) == st
  {
    Subscribed(ep, st.(pendingReconnects := st.pendingReconnects - 1))
  }

  // ----- Runs of events -----

  datatype Event =
    | Subscribe
    | Unsubscribe
    | Open(socket: SocketId)
    | Frame(socket: SocketId, frame: Json, listenerFault: Option<string>)
    | Close(socket: SocketId)
    | SocketError(socket: SocketId, detail: string)
    | ReconnectTimer

  /** Transport events come only from live sockets; a timer fires only if one is scheduled. */
  predicate Enabled(st: State, ev: Event)
  {
    match ev
    case Subscribe => true
    case Unsubscribe => true
    case ReconnectTimer => st.pendingReconnects > 0
    case Open(s) => Live(st, s)
    case Frame(s, _, _) => Live(st, s)
    case Close(s) => Live(st, s)
    case SocketError(s, _) => Live(st, s)
  }

  /** One event; an event that cannot occur in `st` leaves it unchanged. */
  function Step(ep: Endpoint, st: State, ev: Event): State
  {
    if !Enabled(st, ev) then st
    else match ev
      case Subscribe => Subscribed(ep, st)
      case Unsubscribe => Unsubscribed(st)
      case Open(_) => Opened(st)
      case Frame(_, frame, fault) => Received(st, frame, fault)
      case Close(s) => Closed(st, s)
      case SocketError(_, detail) => Errored(st, detail)
      case ReconnectTimer => ReconnectFired(ep, st)
  }

  function Run(ep: Endpoint, st: State, evs: seq<Event>): State
    decreases |evs|
  {
    if evs == [] then st else Run(ep, Step(ep, st, evs[0]), evs[1..])
  }

  // ----- Properties -----

  lemma InitialValid(ep: Endpoint)
    ensures Valid(ep, Initial())
  {
  }

  lemma StepPreservesValid(ep: Endpoint, st: State, ev: Event)
    requires Valid(ep, st)
    ensures Valid(ep, Step(ep, st, ev))
  {
  }

  /**
   Every run keeps the invariant; in particular every `price/updated` emission
   directly follows the `websocket.message` emission of the same price frame.
   */
  lemma {:induction false} RunPreservesValid(ep: Endpoint, st: State, evs: seq<Event>)
    requires Valid(ep, st)
    ensures Valid(ep, Run(ep, st, evs))
    ensures UpdatesPairedWithMessages(Run(ep, st, evs).emitted)
    decreases |evs|
  {
    if evs != [] {
      StepPreservesValid(ep, st, evs[0]);
      RunPreservesValid(ep, Step(ep, st, evs[0]), evs[1..]);
    }
  }

  /** Logs only grow: emissions, sends, sockets and close requests are never taken back. */
  lemma {:induction false} RunExtendsLogs(ep: Endpoint, st: State, evs: seq<Event>)
    ensures var r := Run(ep, st, evs);
            && st.emitted <= r.emitted && st.sent <= r.sent
            && st.connections <= r.connections && st.closeRequests <= r.closeRequests
            && st.closed <= r.closed
    decreases |evs|
  {
    if evs != [] {
      RunExtendsLogs(ep, Step(ep, st, evs[0]), evs[1..]);
    }
  }

  /**
   A close event clears the held handle whichever socket closed, and schedules
   exactly one reconnect when updates are wanted and none otherwise.
   */
  lemma CloseSchedulesReconnectIffWanted(ep: Endpoint, st: State, s: SocketId)
    requires Live(st, s)
    ensures var r := Step(ep, st, Close(s));
            && r.socket == None
            && (st.shouldConnectSocket ==> r.pendingReconnects == st.pendingReconnects + 1)
            && (!st.shouldConnectSocket ==> r.pendingReconnects == st.pendingReconnects)
            && r.shouldConnectSocket == st.shouldConnectSocket
            && r.connections == st.connections
  {
  }

  /** `subscribeToPricesUpdates` wants updates and holds a new socket; an earlier one is not closed. */
  lemma SubscribeReplacesHandle(ep: Endpoint, st: State)
    ensures var r := Step(ep, st, Subscribe);
            && r.shouldConnectSocket
            && r.socket == Some(|st.connections|)
            && |r.connections| == |st.connections| + 1
            && r.connections[|st.connections|] == ConnectionFor(ep)
            && r.closeRequests == st.closeRequests
  {
  }

  /**
   `unsubscribeFromPricesUpdates` clears the flag, asks for a close exactly
   when a socket is held, and changes nothing else.
   */
  lemma UnsubscribeRequestsClose(ep: Endpoint, st: State)
    ensures var u := Step(ep, st, Unsubscribe);
            && !u.shouldConnectSocket
            && u.closeRequests == st.closeRequests + (if st.socket.Some? then [st.socket.value] else [])
            && u.(shouldConnectSocket := st.shouldConnectSocket, closeRequests := st.closeRequests) == st
  {
  }

  /** After `unsubscribeFromPricesUpdates`, the close of any live socket schedules no reconnect. */
  lemma UnsubscribeSuppressesReconnect(ep: Endpoint, st: State, s: SocketId)
    requires Live(st, s)
    ensures Step(ep, Step(ep, st, Unsubscribe), Close(s)).pendingReconnects == st.pendingReconnects
  {
  }

  /**
   The open handler emits `websocket.open` and then sends one subscribe frame,
   to the socket held at that moment; with no socket held nothing is sent.
   */
  lemma OpenSendsOneSubscribe(ep: Endpoint, st: State, s: SocketId)
    requires Live(st, s)
    ensures var r := Step(ep, st, Open(s));
            && r.emitted == st.emitted + [WebsocketOpen]
            && (st.socket.Some? ==> r.sent == st.sent + [Delivery(st.socket.value, SubscribeMessage)])
            && (st.socket.None? ==> r.sent == st.sent)
  {
  }

  /**
   A frame emits `websocket.message` once, first, and then `price/updated` with
   the same frame exactly when its topic is `price/updated`. Nothing but the
   log changes: a frame that fails in dispatch leaves the socket open.
   */
  lemma FrameEmitsMessageThenUpdate(ep: Endpoint, st: State, s: SocketId, frame: Json)
    requires Live(st, s)
    ensures var r := Step(ep, st, Frame(s, frame, None));
            && (IsPriceUpdate(frame) ==> r.emitted == st.emitted + [WebsocketMessage(frame), PriceUpdated(frame)])
            && (!IsPriceUpdate(frame) && frame != JNull ==> r.emitted == st.emitted + [WebsocketMessage(frame)])
            && (frame == JNull ==> r.emitted == st.emitted + [WebsocketMessage(frame), WebsocketError(TopicOfNull)])
            && r.(emitted := st.emitted) == st
  {
  }

  /**
   While updates are not wanted and no reconnect is pending, no event other
   than a call of `subscribeToPricesUpdates` opens a socket or schedules a
   reconnect.
   */
  lemma {:induction false} QuietWhileUnwanted(ep: Endpoint, st: State, evs: seq<Event>)
    requires !st.shouldConnectSocket && st.pendingReconnects == 0
    requires Subscribe !in evs
    ensures var r := Run(ep, st, evs);
            && !r.shouldConnectSocket && r.pendingReconnects == 0
            && r.connections == st.connections
            && (r.socket == None || r.socket == st.socket)
    decreases |evs|
  {
    if evs != [] {
      assert evs[0] != Subscribe;
      assert Subscribe !in evs[1..] by {
        assert forall e | e in evs[1..] :: e in evs;
      }
      QuietWhileUnwanted(ep, Step(ep, st, evs[0]), evs[1..]);
    }
  }

  /** Unsubscribing with no reconnect pending opens no further socket, whatever the transport does. */
  lemma UnsubscribeEndsConnecting(ep: Endpoint, st: State, evs: seq<Event>)
    requires st.pendingReconnects == 0
    requires Subscribe !in evs
    ensures Run(ep, Step(ep, st, Unsubscribe), evs).connections == st.connections
    ensures Run(ep, Step(ep, st, Unsubscribe), evs).pendingReconnects == 0
  {
    QuietWhileUnwanted(ep, Step(ep, st, Unsubscribe), evs);
  }

  /** Until `subscribeToPricesUpdates` is called, a fresh client does nothing at all. */
  lemma {:induction false} FreshClientStaysIdle(ep: Endpoint, evs: seq<Event>)
    requires Subscribe !in evs
    ensures Run(ep, Initial(), evs) == Initial()
    decreases |evs|
  {
    if evs != [] {
      assert Step(ep, Initial(), evs[0]) == Initial();
      assert Subscribe !in evs[1..] by {
        assert forall e | e in evs[1..] :: e in evs;
      }
      FreshClientStaysIdle(ep, evs[1..]);
    }
  }

  /**
   The reconnect timer cannot be cancelled: a reconnect scheduled before
   `unsubscribeFromPricesUpdates` still fires, wants updates again and opens a
   new socket.
   */
  lemma PendingReconnectOutlivesUnsubscribe(ep: Endpoint, st: State)
    requires st.pendingReconnects > 0
    ensures var r := Step(ep, Step(ep, st, Unsubscribe), ReconnectTimer);
            && r.shouldConnectSocket
            && r.socket == Some(|st.connections|)
            && |r.connections| == |st.connections| + 1
  {
  }

  // ----- Sockets left open -----

  /** Every live socket other than the held one has been asked to close. */
  predicate NoLeak(st: State)
  {
    forall s: SocketId | s < |st.connections| && Live(st, s) && st.socket != Some(s) :: s in st.closeRequests
  }

  /**
   Subscribing twice leaves the first socket live, no longer held, and never
   asked to close: nothing can close it any more.
   */
  lemma DuplicateSubscribeLeaks(ep: Endpoint)
    ensures var r := Run(ep, Initial(), [Subscribe, Subscribe]);
            && Live(r, 0) && r.socket == Some(1) && 0 !in r.closeRequests
            && !NoLeak(r)
  {
  }

  /**
   The close handler of a socket that is no longer held drops the handle of
   the live one: its `open` then sends no subscribe frame, and a reconnect is
   scheduled while it stays live.
   */
  lemma StaleCloseOrphansLiveSocket(ep: Endpoint)
    ensures var r := Run(ep, Initial(), [Subscribe, Subscribe, Close(0), Open(1)]);
            && Live(r, 1) && r.socket == None && r.sent == []
            && r.pendingReconnects == 1 && 1 !in r.closeRequests
  {
  }

  /**
   `subscribeToPricesUpdates` as evidently intended: ask the held socket to
   close before replacing it.
   */
  function GuardedSubscribed(ep: Endpoint, st: State): (r: State)
    ensures r.shouldConnectSocket && r.socket == Some(|st.connections|)
    ensures r.closeRequests == st.closeRequests + (if st.socket.Some? then [st.socket.value] else [])
    ensures Valid(ep, st) && NoLeak(st) ==> Valid(ep, r) && NoLeak(r)
  {
    match st.socket
    case None => Subscribed(ep, st)
    case Some(s) => Subscribed(ep, st.(closeRequests := st.closeRequests + [s]))
  }

  /** The close handler as evidently intended: only the held socket's close drops the handle and reconnects. */
  function GuardedClosed(st: State, s: SocketId): (r: State)
    ensures st.socket == Some(s) ==> r == Closed(st, s)
    ensures st.socket != Some(s) ==> r == st.(closed := st.closed + {s})
    ensures st.socket != Some(s) ==> r.socket == st.socket && r.pendingReconnects == st.pendingReconnects
  {
    if st.socket == Some(s) then Closed(st, s) else st.(closed := st.closed + {s})
  }

  function GuardedStep(ep: Endpoint, st: State, ev: Event): State
  {
    if !Enabled(st, ev) then st
    else match ev
      case Subscribe => GuardedSubscribed(ep, st)
      case Close(s) => GuardedClosed(st, s)
      case ReconnectTimer => GuardedSubscribed(ep, st.(pendingReconnects := st.pendingReconnects - 1))
      case _ => Step(ep, st, ev)
  }

  function GuardedRun(ep: Endpoint, st: State, evs: seq<Event>): State
    decreases |evs|
  {
    if evs == [] then st else GuardedRun(ep, GuardedStep(ep, st, evs[0]), evs[1..])
  }

  lemma GuardedStepKeepsOneSocket(ep: Endpoint, st: State, ev: Event)
    requires Valid(ep, st) && NoLeak(st)
    ensures Valid(ep, GuardedStep(ep, st, ev)) && NoLeak(GuardedStep(ep, st, ev))
  {
  }

  /**
   With both corrections, every run from a valid state without leaked sockets
   keeps it so: at most one live socket is ever not on its way to closing.
   */
  lemma {:induction false} GuardedRunKeepsOneSocket(ep: Endpoint, st: State, evs: seq<Event>)
    requires Valid(ep, st) && NoLeak(st)
    ensures Valid(ep, GuardedRun(ep, st, evs)) && NoLeak(GuardedRun(ep, st, evs))
    decreases |evs|
  {
    if evs != [] {
      GuardedStepKeepsOneSocket(ep, st, evs[0]);
      GuardedRunKeepsOneSocket(ep, GuardedStep(ep, st, evs[0]), evs[1..]);
    }
  }

  /** The corrected client no longer leaks on a second subscribe. */
  lemma GuardedDuplicateSubscribeCloses(ep: Endpoint)
    ensures var r := GuardedRun(ep, Initial(), [Subscribe, Subscribe]);
            && r.socket == Some(1) && r.closeRequests == [0] && NoLeak(r)
  {
  }
}
