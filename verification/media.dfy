/**
 * Values exchanged with the media engine (mediasoup) and with the peers.
 * The engine's negotiation objects (ICE and DTLS parameters, RTP parameters and
 * capabilities) are opaque to the signaling layer: it only stores and forwards them.
 */
module Media {
  import opened Wrappers

  /** socket.io connection identity (`socket.id`). */
  type SocketId = string
  type RoomId = string
  type TransportId = string
  type ProducerId = string

  datatype RtpCapabilities = RtpCapabilities(raw: string)
  datatype IceParameters = IceParameters(raw: string)
  datatype IceCandidate = IceCandidate(raw: string)
  datatype DtlsParameters = DtlsParameters(raw: string)
  datatype RtpParameters = RtpParameters(raw: string)

  datatype MediaKind = Audio | Video

  /** One listen address of a WebRTC transport. */
  datatype ListenIp = ListenIp(ip: string, announcedIp: Option<string>)

  /** The options the server passes when it asks the router for a WebRTC transport. */
  datatype TransportOptions = TransportOptions(
    listenIps: seq<ListenIp>,
    enableUdp: bool,
    enableTcp: bool,
    preferUdp: bool)

  /** The fixed options of every send transport: loopback only, UDP and TCP, UDP preferred. */
  const SendTransportOptions: TransportOptions :=
    TransportOptions([ListenIp("127.0.0.1", None)], true, true, true)

  /** A WebRTC transport handle as the router returns it. */
  datatype Transport = Transport(
    id: TransportId,
    iceParameters: IceParameters,
    iceCandidates: seq<IceCandidate>,
    dtlsParameters: DtlsParameters)

  /** A producer handle: the media stream a peer sends over one of its transports. */
  datatype Producer = Producer(
    id: ProducerId,
    kind: MediaKind,
    rtpParameters: RtpParameters,
    transport: TransportId)

  /**
   * One call the server makes into the media engine. The engine's handles change
   * state only through these calls, so the ordered list of them is the observable
   * effect of the handlers on the engine.
   */
  datatype EngineCall =
    | CreateWebRtcTransport(options: TransportOptions, createdTransport: TransportId)
    | Connect(transport: TransportId, dtlsParameters: DtlsParameters)
    | ProduceOn(transport: TransportId, kind: MediaKind, rtpParameters: RtpParameters, createdProducer: ProducerId)
    | CloseTransport(transport: TransportId)
    | CloseProducer(producer: ProducerId)

  /** The payload a handler passes to the peer's acknowledgement callback. */
  datatype Ack =
    | Capabilities(rtpCapabilities: RtpCapabilities)
    | TransportInfo(id: TransportId, iceParameters: IceParameters, iceCandidates: seq<IceCandidate>, dtlsParameters: DtlsParameters)
    | Connected
    | ProducerInfo(id: ProducerId)
}
