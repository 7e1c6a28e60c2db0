/**
 * The per-connection resource registry of the signaling server as values: the two
 * process-wide maps keyed by socket id, the router's capabilities, and the calls made
 * into the media engine so far. One function per socket event handler gives the
 * registry after the handler has run to completion, and what it acknowledged.
 */
module Registry {
  import opened Wrappers
  import opened Media

  datatype State = State(
    capabilities: RtpCapabilities,      // router.rtpCapabilities, fixed once the router exists
    transports: map<SocketId, Transport>,
    producers: map<SocketId, Producer>,
    calls: seq<EngineCall>)             // every call into the media engine, oldest first

  /** The registry after a handler, and the payload of its callback (None: never called back). */
  datatype Outcome = Outcome(state: State, ack: Option<Ack>)

  function Initial(capabilities: RtpCapabilities): (s: State)
    ensures s.transports == map[] && s.producers == map[] && s.calls == []
    ensures s.capabilities == capabilities
  {
    State(capabilities, map[], map[], [])
  }

  /** `joinRoom`: the room join happens inside socket.io; the registry only answers with the router's capabilities. */
  function JoinRoom(s: State, sid: SocketId, roomId: RoomId): (o: Outcome)
    ensures o.state == s
    ensures o.ack == Some(Capabilities(s.capabilities))
  {
    Outcome(s, Some(Capabilities(s.capabilities)))
  }

  /**
   * `createSendTransport`: `created` is the transport the router returned for the
   * fixed send options. It is stored under the caller's socket id, replacing any
   * previous transport without closing it.
   */
  function CreateSendTransport(s: State, sid: SocketId, roomId: RoomId, created: Transport): (o: Outcome)
    ensures Lookup(o.state.transports, sid) == Some(created)
    ensures forall other :: other != sid ==> Lookup(o.state.transports, other) == Lookup(s.transports, other)
    ensures o.state.producers == s.producers && o.state.capabilities == s.capabilities
    ensures o.state.calls == s.calls + [CreateWebRtcTransport(SendTransportOptions, created.id)]
    ensures sid in o.state.transports &&
            var t := o.state.transports[sid];
            o.ack == Some(TransportInfo(t.id, t.iceParameters, t.iceCandidates, t.dtlsParameters))
  {
    var calls := s.calls + [CreateWebRtcTransport(SendTransportOptions, created.id)];
    var ack := TransportInfo(created.id, created.iceParameters, created.iceCandidates, created.dtlsParameters);
    Outcome(s.(transports := s.transports[sid := created], calls := calls), Some(ack))
  }

  /**
   * `connectTransport`: without a transport for the socket the handler returns
   * before doing anything, and the peer is never called back.
   */
  function ConnectTransport(s: State, sid: SocketId, dtls: DtlsParameters, roomId: RoomId): (o: Outcome)
    ensures o.state.transports == s.transports && o.state.producers == s.producers
    ensures o.state.capabilities == s.capabilities
    ensures o.ack.Some? <==> sid in s.transports
    ensures sid !in s.transports ==> o.state == s
    ensures sid in s.transports ==>
              o.ack == Some(Connected) &&
              o.state.calls == s.calls + [Connect(s.transports[sid].id, dtls)]
  {
    match Lookup(s.transports, sid)
    case None => Outcome(s, None)
    case Some(transport) =>
      Outcome(s.(calls := s.calls + [Connect(transport.id, dtls)]), Some(Connected))
  }

  /**
   * `produce`: `created` is the id the engine gives the new producer. Without a
   * transport nothing happens and the peer is never called back; otherwise the
   * producer made on the socket's transport replaces any earlier one, unclosed.
   */
  function Produce(s: State, sid: SocketId, kind: MediaKind, rtp: RtpParameters, roomId: RoomId,
                   created: ProducerId): (o: Outcome)
    ensures o.state.transports == s.transports && o.state.capabilities == s.capabilities
    ensures o.ack.Some? <==> sid in s.transports
    ensures sid !in s.transports ==> o.state == s
    ensures sid in s.transports ==>
              var transport := s.transports[sid].id;
              && Lookup(o.state.producers, sid) == Some(Producer(created, kind, rtp, transport))
              && o.ack == Some(ProducerInfo(o.state.producers[sid].id))
              && o.state.calls == s.calls + [ProduceOn(transport, kind, rtp, created)]
    ensures forall other :: other != sid ==> Lookup(o.state.producers, other) == Lookup(s.producers, other)
  {
    match Lookup(s.transports, sid)
    case None => Outcome(s, None)
    case Some(transport) =>
      var producer := Producer(created, kind, rtp, transport.id);
      var calls := s.calls + [ProduceOn(transport.id, kind, rtp, created)];
      Outcome(s.(producers := s.producers[sid := producer], calls := calls), Some(ProducerInfo(producer.id)))
  }

  /** The part of `disconnect` that deals with the transport: close it and forget it, if registered. */
  function CloseSocketTransport(s: State, sid: SocketId): (r: State)
    ensures sid !in r.transports && r.producers == s.producers && r.capabilities == s.capabilities
    ensures forall other :: other != sid ==> Lookup(r.transports, other) == Lookup(s.transports, other)
    ensures r.calls == s.calls + (if sid in s.transports then [CloseTransport(s.transports[sid].id)] else [])
  {
    match Lookup(s.transports, sid)
    case None => s
    case Some(transport) =>
      s.(transports := s.transports - {sid}, calls := s.calls + [CloseTransport(transport.id)])
  }

  /** The part of `disconnect` that deals with the producer: close it and forget it, if registered. */
  function CloseSocketProducer(s: State, sid: SocketId): (r: State)
    ensures sid !in r.producers && r.transports == s.transports && r.capabilities == s.capabilities
    ensures forall other :: other != sid ==> Lookup(r.producers, other) == Lookup(s.producers, other)
    ensures r.calls == s.calls + (if sid in s.producers then [CloseProducer(s.producers[sid].id)] else [])
  {
    match Lookup(s.producers, sid)
    case None => s
    case Some(producer) =>
      s.(producers := s.producers - {sid}, calls := s.calls + [CloseProducer(producer.id)])
  }

  /**
   * `disconnect`: closes the socket's transport, then its producer, each only if
   * registered, and removes both entries. There is no callback.
   */
  function Disconnect(s: State, sid: SocketId): (o: Outcome)
    ensures sid !in o.state.transports && sid !in o.state.producers
    ensures forall other :: other != sid ==>
              && Lookup(o.state.transports, other) == Lookup(s.transports, other)
              && Lookup(o.state.producers, other) == Lookup(s.producers, other)
    ensures o.state.capabilities == s.capabilities && o.ack == None
    // the engine sees one close per registered handle, appended, the transport's first
    ensures |o.state.calls| == |s.calls| + (if sid in s.transports then 1 else 0)
                                         + (if sid in s.producers then 1 else 0)
    ensures o.state.calls[..|s.calls|] == s.calls
    ensures sid in s.transports ==> o.state.calls[|s.calls|] == CloseTransport(s.transports[sid].id)
    ensures sid in s.producers ==> o.state.calls[|o.state.calls| - 1] == CloseProducer(s.producers[sid].id)
  {
    Outcome(CloseSocketProducer(CloseSocketTransport(s, sid), sid), None)
  }

  /** A second `disconnect` for the same socket finds no entries, closes nothing and changes nothing. */
  lemma DisconnectIdempotent(s: State, sid: SocketId)
    ensures Disconnect(Disconnect(s, sid).state, sid) == Outcome(Disconnect(s, sid).state, None)
  {
  }

  /** Each handle registered for the socket gets exactly one more close call from `disconnect`. */
  lemma DisconnectClosesOnce(s: State, sid: SocketId)
    ensures var after := multiset(Disconnect(s, sid).state.calls);
            && (sid in s.transports ==>
                  after[CloseTransport(s.transports[sid].id)] == multiset(s.calls)[CloseTransport(s.transports[sid].id)] + 1)
            && (sid in s.producers ==>
                  after[CloseProducer(s.producers[sid].id)] == multiset(s.calls)[CloseProducer(s.producers[sid].id)] + 1)
  {
    var t := CloseSocketTransport(s, sid);
    assert multiset(t.calls) == multiset(s.calls) + (if sid in s.transports then multiset{CloseTransport(s.transports[sid].id)} else multiset{});
  }
}
