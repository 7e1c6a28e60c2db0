/**
 * The socket event handlers as the server runs them: one object owns the two maps
 * that the handlers update in place, and the record of calls made into the media
 * engine. Each handler runs as one atomic step; values that the engine produces
 * asynchronously (a new transport, a new producer's id) are parameters.
 */
module Server {
  import opened Wrappers
  import opened Media
  import Registry

  class SignalingServer {
    const capabilities: RtpCapabilities          // router.rtpCapabilities
    var transports: map<SocketId, Transport>      // socket.id -> transport
    var producers: map<SocketId, Producer>        // socket.id -> producer
    var engineCalls: seq<EngineCall>              // calls into the media engine, oldest first

    /** The registry this server currently holds. */
    function State(): (s: Registry.State)
      reads this
      ensures s.transports == transports && s.producers == producers && s.calls == engineCalls
      ensures s.capabilities == capabilities
    {
      Registry.State(capabilities, transports, producers, engineCalls)
    }

    /** A server whose router is ready and that has no connection yet. */
    constructor (routerCapabilities: RtpCapabilities)
      ensures State() == Registry.Initial(routerCapabilities)
    {
      capabilities := routerCapabilities;
      transports := map[];
      producers := map[];
      engineCalls := [];
    }

    /** `joinRoom`: answers with the router's capabilities and touches neither map. */
    method JoinRoom(sid: SocketId, roomId: RoomId) returns (ack: Option<Ack>)
      ensures ack == Registry.JoinRoom(State(), sid, roomId).ack
      ensures ack == Some(Capabilities(capabilities))
    {
      ack := Some(Capabilities(capabilities));
    }

    /** `createSendTransport`, where `created` is what the router returned for the send options. */
    method CreateSendTransport(sid: SocketId, roomId: RoomId, created: Transport) returns (ack: Option<Ack>)
      modifies this
      ensures Registry.Outcome(State(), ack) == Registry.CreateSendTransport(old(State()), sid, roomId, created)
    {
      engineCalls := engineCalls + [CreateWebRtcTransport(SendTransportOptions, created.id)];
      transports := transports[sid := created];
      ack := Some(TransportInfo(created.id, created.iceParameters, created.iceCandidates, created.dtlsParameters));
    }

    /** `connectTransport`: returns silently, with no callback, when the socket has no transport. */
    method ConnectTransport(sid: SocketId, dtls: DtlsParameters, roomId: RoomId) returns (ack: Option<Ack>)
      modifies this
      ensures Registry.Outcome(State(), ack) == Registry.ConnectTransport(old(State()), sid, dtls, roomId)
    {
      if sid !in transports {
        return None;
      }
      var transport := transports[sid];
      engineCalls := engineCalls + [Connect(transport.id, dtls)];
      ack := Some(Connected);
    }

    /** `produce`, where `created` is the id the engine gave the new producer. */
    method Produce(sid: SocketId, kind: MediaKind, rtp: RtpParameters, roomId: RoomId, created: ProducerId)
      returns (ack: Option<Ack>)
      modifies this
      ensures Registry.Outcome(State(), ack) == Registry.Produce(old(State()), sid, kind, rtp, roomId, created)
    {
      if sid !in transports {
        return None;
      }
      var transport := transports[sid];
      engineCalls := engineCalls + [ProduceOn(transport.id, kind, rtp, created)];
      var producer := Producer(created, kind, rtp, transport.id);
      producers := producers[sid := producer];
      ack := Some(ProducerInfo(producer.id));
    }

    /** `disconnect`: closes and forgets the socket's transport, then its producer. */
    method Disconnect(sid: SocketId)
      modifies this
      ensures State() == Registry.Disconnect(old(State()), sid).state
    {
      if sid in transports {
        var transport := transports[sid];
        engineCalls := engineCalls + [CloseTransport(transport.id)];
        transports := transports - {sid};
      }
      if sid in producers {
        var producer := producers[sid];
        engineCalls := engineCalls + [CloseProducer(producer.id)];
        producers := producers - {sid};
      }
    }
  }
}
