# Signaling server resource registry

A model of the signaling core of a small mediasoup-based publishing server. The server keeps two
process-wide maps keyed by the socket.io connection id: `transports` and `producers`. Five socket
event handlers read and update them:

- `joinRoom` answers with the router's RTP capabilities.
- `createSendTransport` asks the router for a WebRTC transport and stores it under the socket id.
- `connectTransport` passes the peer's DTLS parameters to the socket's transport.
- `produce` creates a producer on the socket's transport and stores it.
- `disconnect` closes and removes whatever is registered for the socket.

Modules:

- `Media` (media.dfy) defines the values exchanged with mediasoup and with the peers:
  - opaque ICE, DTLS and RTP parameter values;
  - transport and producer handles;
  - the fixed send-transport options (listen IP 127.0.0.1, UDP and TCP enabled, UDP preferred);
  - the callback payloads;
  - `EngineCall`, one call into the media engine.
- `Registry` (registry.dfy) describes the registry as a value: the router's capabilities, the two maps,
  and the ordered list of engine calls made so far. It has one function per handler, giving the
  registry after the handler and the payload it passed to the callback. `None` means the callback was
  never called. These functions carry the contracts about each handler.
- `Server` (server.dfy) is the imperative form. Class `SignalingServer` holds the two maps and the
  engine-call record as fields that its handler methods update in place. Each method is proved equal
  to the matching `Registry` function.
- `Session` (session.dfy) covers histories: a sequence of socket events applied one at a time. It holds
  the lemmas that relate several handler runs: isolation between sockets, repeated disconnects, no
  handle closed twice, a whole publishing session, and the leak of a replaced transport.

The server changes mediasoup's handles only by calling `connect`, `produce` or `close` on them.
So the handles are values here, and those calls (with the creations) are appended to the engine-call
record in the order the server makes them. Closing a transport also closes, inside mediasoup, every
producer made on it; the record holds only the server's own calls, so a producer whose transport was
closed has no close call of its own in it. "Closed exactly once" and "the transport is closed before
the producer" are statements about that record.

Where a stricter session lifecycle would fail explicitly or close replaced handles, the model follows the code:

- `connectTransport` and `produce` return without calling back when the socket has no transport.
  They do not fail explicitly.
- `createSendTransport` and `produce` overwrite an existing entry without closing the old handle.
- `disconnect` closes the transport before the producer.
- The server keeps no room map of its own.

## Model

| member | source | states |
|---|---|---|
| Registry.Initial | index.js:18-19 | the registry starts with both maps empty and no engine call made |
| Registry.JoinRoom | index.js:45-49 | the acknowledgement is the router's capabilities, unmodified; neither map nor the engine record changes |
| Registry.CreateSendTransport | index.js:51-67 | the created transport is stored under the caller's socket id, replacing any earlier entry; other sockets' transports, the producers map and the capabilities are unchanged; one router call is made, with the fixed send options; the acknowledgement carries id, ICE parameters, ICE candidates and DTLS parameters of exactly the stored transport |
| Registry.ConnectTransport | index.js:69-74 | it acknowledges if and only if the socket has a transport; with none, nothing changes and there is no callback; otherwise that same transport is connected with the given DTLS parameters, the ack has no payload, and both maps stay unchanged |
| Registry.Produce | index.js:76-84 | it acknowledges if and only if the socket has a transport; with none, nothing changes; otherwise the producer made on that transport (given kind and RTP parameters) is stored under the socket id, overwriting any earlier one, and acknowledged with its id; the transports map and other sockets' producers are unchanged |
| Registry.Disconnect | index.js:86-101 | afterwards neither map has the socket; other sockets' entries are untouched; there is no callback; the engine record grows by one close per registered handle, transport first, then producer |
| Registry.DisconnectIdempotent | index.js:90-100 | a second disconnect finds nothing, closes nothing and changes nothing |
| Registry.DisconnectClosesOnce | index.js:90-100 | disconnect closes each handle registered for the socket exactly once more |
| Server.SignalingServer.constructor | index.js:16-19 | a fresh server holds the initial registry with the router's capabilities |
| Server.SignalingServer.JoinRoom | index.js:45-49 | answers with the router's capabilities and changes no field |
| Server.SignalingServer.CreateSendTransport | index.js:51-67 | the in-place update of the maps and engine record, and the ack, are exactly those of Registry.CreateSendTransport |
| Server.SignalingServer.ConnectTransport | index.js:69-74 | the early return and the connect path match Registry.ConnectTransport |
| Server.SignalingServer.Produce | index.js:76-84 | the early return and the store-and-ack path match Registry.Produce |
| Server.SignalingServer.Disconnect | index.js:86-101 | deleting both entries and closing their handles matches Registry.Disconnect |
| Session.Step | index.js:45-101 | a request goes unanswered exactly when it is a disconnect, or a connect or produce on a socket with no transport |
| Session.Run | index.js:42-102 | handling a sequence of events never changes the capabilities and only appends to the engine-call record |
| Session.OtherSocketsUntouched | index.js:51-101 | events of other sockets leave a socket's transport and producer entries as they were |
| Session.RepeatedDisconnect | index.js:86-101 | any positive number of disconnects for a socket has the effect of the first |
| Session.StepConsistent | index.js:51-101 | every handler keeps registered handles created, open, registered under one socket, and never closed twice, given fresh engine ids |
| Session.RunConsistent | index.js:51-101 | over any history with fresh engine ids, no transport and no producer is ever closed more than once |
| Session.PublishSession | index.js:45-101 | join, create, connect, produce and disconnect are answered with capabilities, the transport's parameters, an empty ack and the producer id; the engine sees create, connect, produce, close transport and close producer, in that order; nothing for the socket remains |
| Session.ReplacedTransportNeverClosed | index.js:59-94 | a transport replaced by a second createSendTransport is never closed, even after disconnect, while the second one is |
| Session.ReplacedProducerNotClosedDirectly | index.js:81-99 | a producer replaced by a second produce never gets a close call of its own, even after disconnect, while the second one does; the first is closed only through its transport, which disconnect closes |
| Session.DisconnectClosesExactlyOnce | index.js:90-100 | in a consistent registry, after disconnect each handle that was registered for the socket has exactly one close call in the whole engine record |

## Left out

- HTTP server creation, CORS configuration and `server.listen` (index.js:1-14, 104-107) are process and network plumbing.
- `startMediasoup` (index.js:21-40), the worker and router creation and the codec list, are library calls. The router's RTP capabilities are an opaque value given to the constructor.
- The inner workings of mediasoup are left out: ICE and DTLS negotiation, RTP, and the effect of `close()` on a transport's producers. The values the engine returns are handler parameters: the created transport, and the created producer's id.
- Session.RunConsistent: assumes the engine never reuses a transport or producer id, which mediasoup's generated ids provide; the model does not generate ids itself.
- `socket.join(roomId)` (index.js:46) is kept inside socket.io. The server keeps no room map, so the model has none, and `roomId` has no effect in any handler.
- `async`/`await` interleaving between handlers, and rejected engine promises, are left out. The code handles neither, so each handler is one atomic step that succeeds.
- A produce request's `kind` is a client-supplied string in the source. Here it is audio or video, the only kinds the engine accepts; other kinds end in a rejected promise, which is out of scope.
- The handlers assume that every request comes with an acknowledgement function. The source calls `callback` unconditionally (index.js:48, 61, 73, 83), so a request without one throws a TypeError, in the async handlers after the map update or engine call; the model instead reports the payload.
- Events are assumed to arrive only once the router exists. `server.listen` starts `startMediasoup()` without waiting for it (index.js:104-106), and an event that arrives earlier finds `router` undefined (index.js:48, 52).
- `console.log` calls (index.js:39, 43, 47, 87) are left out.
