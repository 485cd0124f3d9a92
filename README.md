# prices-client-ts: the `Client` of the price-quotation service, in Dafny

This project models the `Client` class of `src/index.ts`, a client for a
remote price-quotation service. The client has two sides:

- a streaming subscription to price updates over a WebSocket, with automatic
  reconnection while the subscription is wanted;
- three request/response calls (`listPrices`, `getPrice`, `convertPrice`).

The subscription is a small state machine: the flag `shouldConnectSocket`, the
optional held `socket`, the events the client emits, the frames it sends and
the reconnects it has scheduled. Live sockets become numbered handles and the
socket callbacks (`open`, `message`, `close`, `error`) become events. `emit`
and `send` become appends to logs. A `setTimeout` reconnect becomes a counter of
reconnects that are scheduled and have not fired yet.

Modules:

- `Wrappers` (wrappers.dfy): `Option`, standing for TypeScript's `T | undefined`.
- `Options` (options.dfy): the constructor's defaulting of the two URLs with
  JavaScript's `||`, where an empty string also falls back to the default.
- `Wire` (wire.dfy): decoded frames as JSON values, the outbound `Message`, the
  subscribe frame, and what one inbound frame makes the client emit
  (`onMessage` and its `try`/`catch`).
- `Rest` (rest.dfy): the axios call each request operation makes, as verb,
  URL, `data` argument and config headers. It also holds the corrected
  `getPrice` and `convertPrice` requests of the findings below.
- `Lifecycle` (lifecycle.dfy): the subscription as pure transition functions,
  runs of events, and the lemmas about them. It also holds the corrected
  subscribe/close pair of the findings below.
- `PricesClient` (client.dfy): the `Client` class. Its fields are the source's
  fields plus the logs. Each public operation and each socket handler is
  proved to move the abstract state exactly as the matching `Lifecycle`
  function does, and to keep `Valid()`. The private `OnMessage` is specified by
  `Wire.Dispatch` alone: it runs inside the `message` handler, after the
  `websocket.message` emission, and only the handler as a whole keeps `Valid()`.

Notes on the code as written:

- The client never emits `websocket.close`.
- `JSON.parse` sits outside the `try`, so a frame that fails to parse is not
  reported as `websocket.error`.
- `getPrice` does not substitute its arguments.
- `convertPrice` does not send its parameters.
- Two live sockets can coexist (see Findings).

## Model

| member | source | states |
|---|---|---|
| Options.Truthy | src/index.ts:78-79 | an optional string is falsy for `\|\|` exactly when it is `undefined` or `""` |
| Options.Resolve | src/index.ts:76-80 | each URL is the supplied non-empty value or its default (also for `""`); both URLs are non-empty; the token is left undefined whatever the options say |
| Options.ResolveIdempotent | src/index.ts:76-80 | building a client from a client's own settings gives the same settings |
| Options.DefaultsWhenMissingOrEmpty | src/index.ts:41-45 | no options, empty-string URLs and `defaultClientOptions` all give `https://prices.anypayx.com` and `wss://prices.anypayx.com` with no token |
| Wire.IsPriceUpdate | src/index.ts:134 | the frame passes the topic test exactly when it is an object whose `topic` field is the string `price/updated` |
| Wire.TopicIsPriceUpdated | src/index.ts:134 | `data.topic === 'price/updated'` throws exactly for a `null` frame and is true exactly for an object whose `topic` is that string |
| Wire.Dispatch | src/index.ts:101-105 | the try block emits exactly `[price/updated]` for a price frame, followed by one `websocket.error` when a listener throws; exactly one `websocket.error` for a `null` frame; nothing for any other frame |
| Wire.Receive | src/index.ts:98-107 | a frame emits `websocket.message` exactly once and first; then exactly `price/updated` of the same frame for a price frame with no throwing listener, nothing more for any other non-null frame, and one `websocket.error` for a `null` frame; messages and updates stay paired |
| Rest.Interpolate | src/index.ts:86 | a `${…}` substitution gives a present string unchanged, and prints `undefined` exactly when the value is absent or is the string `undefined`, so a missing token and the token `"undefined"` send the same header |
| Rest.ListPrices | src/index.ts:140-148 | a GET with no body to a path under the HTTP base URL, with the Authorization header in its config |
| Rest.GetPrice | src/index.ts:150-158 | the `listPrices` request with the literal `/{base}/{quote}/{source}` appended to its URL, whatever the arguments |
| Rest.ConvertPrice | src/index.ts:160-169 | a POST under the HTTP base URL whose body is the headers object and which has no config |
| Rest.Authorization | src/index.ts:86 | the header is `Bearer ` followed by the token, or `Bearer undefined` when there is none |
| Rest.RequestTargets | src/index.ts:140-166 | the three requests: GET `url + "/api/prices"`, GET `url + "/api/prices/{base}/{quote}/{source}"` literally, POST `url + "/api/conversions"` with the headers object as the body and no config |
| Rest.GetsAreAuthorisedUnderBase | src/index.ts:141-155 | both GETs target a path under the HTTP base URL and carry the Authorization header in their config |
| Rest.GetPriceIgnoresPair | src/index.ts:151 | as written, two different currency pairs get the same request |
| Rest.ConvertPriceDropsParams | src/index.ts:160-166 | as written, two different conversions post the same request, which carries no Authorization header and none of the parameters |
| Rest.InterpolatedTargetNamesPair | src/index.ts:151 | with interpolation, equal targets under one base URL mean the same base, quote and source, for arguments without `/` |
| Rest.GetPriceInterpolated | src/index.ts:151 | corrected request: the as-written `getPrice` request with base, quote and source substituted into its path |
| Rest.ConvertPriceWithBody | src/index.ts:160-166 | corrected request: the parameters are the body, the Authorization header is in the config, the target is unchanged |
| Rest.ConvertPriceWithBodyDistinguishes | src/index.ts:160-166 | corrected request: different conversions post different requests |
| Lifecycle.Subscribed | src/index.ts:82-88 | sets the flag and holds a new handle for one new socket to the configured connection; nothing else changes (no close is requested, pending reconnects, emissions and sends stay); the invariant is kept and the held socket is live |
| Lifecycle.Unsubscribed | src/index.ts:124-127 | clears the flag, requests a close of the held socket exactly when there is one, and changes nothing else |
| Lifecycle.SendMessage | src/index.ts:129-131 | adds one send to the held socket, or changes nothing when none is held |
| Lifecycle.Opened | src/index.ts:89-96 | emits `websocket.open`, then sends the subscribe frame to the held socket if any; nothing else changes |
| Lifecycle.Received | src/index.ts:98-107 | appends exactly the emissions `Wire.Receive` gives for the frame (`websocket.message` first), keeps messages and updates paired, and changes nothing else |
| Lifecycle.Closed | src/index.ts:109-116 | drops the held handle, marks the socket closed, adds one pending reconnect exactly when the flag is set, and changes nothing else |
| Lifecycle.Errored | src/index.ts:118-121 | emits one `websocket.error` with the socket's error and changes nothing else |
| Lifecycle.ReconnectFired | src/index.ts:112-114 | consumes one pending reconnect and subscribes again: the flag is set and one new socket to the configured connection is held, whatever the flag was; nothing else changes |
| Lifecycle.InitialValid | src/index.ts:73-74 | a fresh client (not subscribed, no socket, nothing done) satisfies the invariant |
| Lifecycle.StepPreservesValid | src/index.ts:82-127 | every operation and socket event keeps the invariant: the held socket is live, every handle names a created socket, every socket targets the configured URL with the configured header, and each `price/updated` is paired with its `websocket.message` |
| Lifecycle.RunPreservesValid | src/index.ts:82-127 | every run of events keeps that invariant, so `price/updated` is always emitted right after the `websocket.message` of the same price frame |
| Lifecycle.RunExtendsLogs | src/index.ts:82-131 | emissions, sends, created sockets, close requests and closed sockets only grow along a run |
| Lifecycle.CloseSchedulesReconnectIffWanted | src/index.ts:109-116 | a close event drops the held handle whichever socket closed, and schedules exactly one reconnect if updates are wanted and none otherwise |
| Lifecycle.SubscribeReplacesHandle | src/index.ts:82-88 | subscribing sets the flag and holds a new socket to the configured URL; the earlier socket gets no close request |
| Lifecycle.UnsubscribeRequestsClose | src/index.ts:124-127 | from any state, unsubscribing clears the flag, requests a close exactly when a socket is held, and changes nothing else |
| Lifecycle.UnsubscribeSuppressesReconnect | src/index.ts:109-127 | after unsubscribing, the close of any live socket schedules no reconnect |
| Lifecycle.OpenSendsOneSubscribe | src/index.ts:89-96 | `open` emits `websocket.open`, then sends one subscribe frame to the socket held at that moment, or nothing when none is held |
| Lifecycle.FrameEmitsMessageThenUpdate | src/index.ts:98-107 | a frame adds `websocket.message` and, for a price frame, `price/updated` of the same frame; for a `null` frame, a `websocket.error`; nothing but the log changes, so the socket stays open |
| Lifecycle.QuietWhileUnwanted | src/index.ts:109-116 | while updates are unwanted and no reconnect is pending, no event except a subscribe call opens a socket or schedules a reconnect |
| Lifecycle.UnsubscribeEndsConnecting | src/index.ts:124-127 | after unsubscribing with no reconnect pending, no further socket is opened, whatever the transport does |
| Lifecycle.FreshClientStaysIdle | src/index.ts:73-74 | until `subscribeToPricesUpdates` is called, a fresh client stays exactly in its initial state |
| Lifecycle.PendingReconnectOutlivesUnsubscribe | src/index.ts:112-114 | a reconnect scheduled before an unsubscribe still fires, sets the flag again and opens a new socket |
| Lifecycle.DuplicateSubscribeLeaks | src/index.ts:82-88 | as written, subscribing twice leaves the first socket live, not held and never asked to close |
| Lifecycle.StaleCloseOrphansLiveSocket | src/index.ts:109-111 | as written, the close of an old socket drops the handle of the live one, whose `open` then sends nothing, and schedules a reconnect beside it |
| Lifecycle.GuardedSubscribed | src/index.ts:82-88 | corrected subscribe: requests a close of the held socket before holding a new one, and keeps the invariant and the absence of leaked sockets |
| Lifecycle.GuardedClosed | src/index.ts:109-116 | corrected close handler: acts as the original one for the held socket; for any other socket only marks it closed, keeping the handle and scheduling nothing |
| Lifecycle.GuardedStepKeepsOneSocket | src/index.ts:82-116 | corrected subscribe and close keep the invariant and leave no live socket except the held one without a close request |
| Lifecycle.GuardedRunKeepsOneSocket | src/index.ts:82-116 | corrected subscribe and close keep that over every run |
| Lifecycle.GuardedDuplicateSubscribeCloses | src/index.ts:82-88 | corrected: a second subscribe asks the first socket to close |
| PricesClient.Client.constructor | src/index.ts:76-80 | the URLs are the resolved options, the token is undefined, the flag is false, no socket is held and nothing has happened |
| PricesClient.Client.SubscribeToPricesUpdates | src/index.ts:82-88 | sets the flag and holds a new socket opened to `websocket_api_url` with the Bearer header; the old handle is dropped without a close |
| PricesClient.Client.UnsubscribeFromPricesUpdates | src/index.ts:124-127 | clears the flag and requests a close of the held socket, if any; nothing else changes |
| PricesClient.Client.SendMessage | src/index.ts:129-131 | sends on the held socket, and does nothing when none is held |
| PricesClient.Client.HandleOpen | src/index.ts:89-97 | emits `websocket.open`, then sends the subscribe frame |
| PricesClient.Client.OnMessage | src/index.ts:133-138 | adds exactly the emissions `Wire.Dispatch` gives for the frame; nothing else changes |
| PricesClient.Client.HandleMessage | src/index.ts:98-107 | adds exactly the emissions `Wire.Receive` gives for the frame and keeps the invariant |
| PricesClient.Client.HandleClose | src/index.ts:109-116 | drops the handle and adds one pending reconnect exactly when the flag is set |
| PricesClient.Client.HandleError | src/index.ts:118-121 | emits `websocket.error` with the socket's error and changes nothing else |
| PricesClient.Client.FireReconnect | src/index.ts:112-114 | consumes one pending reconnect and subscribes again |
| PricesClient.Client.ListPrices | src/index.ts:140-148 | the `listPrices` request, whose Authorization header is `Bearer undefined` |
| PricesClient.Client.GetPrice | src/index.ts:150-158 | the `getPrice` request, whose Authorization header is `Bearer undefined` |
| PricesClient.Client.ConvertPrice | src/index.ts:160-169 | the `convertPrice` request, whose body is the `Bearer undefined` headers object and which has no config |

## Left out

- Network I/O through `ws` and `axios` is not modelled. Neither is decoding the responses of `listPrices`, `getPrice` and `convertPrice`. Both are calls into libraries outside this model, so the model records only the requests built.
- `JSON.parse` of inbound frames is not modelled: the model takes the decoded value. A parse failure throws outside the `try`, so it is not reported as `websocket.error` and the model does not report it either.
- `JSON.stringify` of outbound frames is not modelled: sends are recorded as structured messages.
- Reconnect timing is not modelled: the 1000 ms `setTimeout` delay becomes a count of pending reconnects, with no time.
- `EventEmitter` listener registration and ordering are not modelled: emissions are an append-only log. A throwing `price/updated` listener is a parameter of the `message` handler.
- A throwing `websocket.message` listener is not modelled. That emit sits outside the `try`, so the throw escapes the handler.
- Listener side effects on the frame are not modelled. `websocket.message` listeners receive the parsed object by reference, so a listener that changes its `topic` changes what the topic test then sees. The model dispatches on the frame as decoded.
- A throwing `websocket.open` listener is not modelled. `websocket.open` is emitted before `sendMessage`, so such a throw skips the subscribe frame and escapes the `open` handler. `Lifecycle.Opened` and `Lifecycle.OpenSendsOneSubscribe` assume the listeners return normally.
- A throwing `websocket.error` listener is not modelled. In the `message` handler it throws inside the `catch`. In the socket `error` handler (src/index.ts:118-121) the emit sits outside any `try`, so `console.error` is skipped. Either way the throw escapes the handler.
- Options.Resolve: writes to the exported `defaultClientOptions` object are not modelled, so the defaults are constants. Because src/index.ts:78-79 read that object on every construction, a client built after `defaultClientOptions.http_api_url = ""` gets the URL `""`, and after `= undefined` it gets `"undefined"`. The "both URLs are non-empty" clause holds only while the defaults are left alone.
- PricesClient.Client.ListPrices, PricesClient.Client.GetPrice, PricesClient.Client.ConvertPrice: assignments to the client's public fields `token`, `http_api_url` and `websocket_api_url` (src/index.ts:71-75) are not modelled. The model makes them constants fixed at construction, with the token undefined. The `Bearer undefined` clauses therefore hold only for a client whose fields nobody has assigned; after `client.token = "t"`, the requests carry `Bearer t`.
- Lifecycle.Subscribed, Lifecycle.Opened, Lifecycle.OpenSendsOneSubscribe: synchronous throws from `ws` are not modelled, and every call is taken to succeed. `send` on a socket that is still connecting throws. So after subscribe, subscribe, the `open` handler of socket 0 sends on socket 1 before socket 1 has opened, and the error escapes the handler, while the model records a delivery to socket 1. `new WebSocket` throws on a URL that `ws` rejects, after the flag has already been set at src/index.ts:83, while the model always creates the socket. The corrected members `Lifecycle.GuardedSubscribed` and `Lifecycle.GuardedClosed` do not address either throw.
- Transport ordering is not modelled (for example, `open` before `message`): any live socket may deliver any event. A socket `error` neither closes the socket nor reconnects, and neither does the model.
- The `schemas` object (src/index.ts:51-68) is left out, because nothing consults it.
- `console.error` output is left out.
- `createClient` (src/index.ts:172-174) is only `new Client(options)`, so the constructor covers it.
- src/test_client.ts and __tests__/client.test.ts are left out. The first is console wiring and the second needs a live server.
- JavaScript numbers are modelled as `real`: no floating-point rounding.
- Corrected members do not replace the as-written ones. The `Client` class and the as-written functions model the code as it is. The corrected members stand beside them, with their intended properties proved.

## Findings

| source | as written | input that shows it | evidently intended | confidence | as-written member | corrected member |
|---|---|---|---|---|---|---|
| src/index.ts:151 | the path is a plain string, so `{base}/{quote}/{source}` are sent literally | `getPrice` for USD/BTC and for EUR/ETH build the same URL | template interpolation `${base}/${quote}/${source}` | high, not executed | Rest.GetPriceIgnoresPair | Rest.InterpolatedTargetNamesPair |
| src/index.ts:160-166 | the `{headers}` object is passed as axios's `data`, and `params` is unused | converting 1000 USD to BTC and 5 EUR to ETH post the same body, with no Authorization header | `params` as the body, the headers in the config | high, not executed | Rest.ConvertPriceDropsParams | Rest.ConvertPriceWithBody |
| src/index.ts:82-116 | subscribe replaces the handle without closing the old socket, and any socket's close clears the handle | subscribe, subscribe: socket 0 stays live and is never closed; when socket 0 then opens, its handler sends the subscribe frame on socket 1, which `ws` refuses while socket 1 is still connecting (a send error the model does not capture) | close the held socket before replacing it, and act on a close only for the held socket | medium, not executed | Lifecycle.DuplicateSubscribeLeaks | Lifecycle.GuardedRunKeepsOneSocket |
