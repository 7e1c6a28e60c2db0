/**
 * Sequences of handler runs. socket.io delivers events one at a time and each
 * handler is taken as one atomic step, so a history of the server is a sequence
 * of events applied in order to the registry.
 */
module Session {
  import opened Wrappers
  import opened Media
  import opened Registry

  /** One socket event with its arguments and, where the engine creates a handle, the engine's answer. */
  datatype Event =
    | JoinRoomEvent(sid: SocketId, roomId: RoomId)
    | CreateSendTransportEvent(sid: SocketId, roomId: RoomId, transport: Transport)
    | ConnectTransportEvent(sid: SocketId, dtls: DtlsParameters, roomId: RoomId)
    | ProduceEvent(sid: SocketId, kind: MediaKind, rtp: RtpParameters, roomId: RoomId, producer: ProducerId)
    | DisconnectEvent(sid: SocketId)

  function Step(s: State, e: Event): (o: Outcome)
    // every request is answered except a connect or produce with no transport, and disconnect
    ensures o.ack.None? <==> (e.DisconnectEvent? ||
                              ((e.ConnectTransportEvent? || e.ProduceEvent?) && e.sid !in s.transports))
  {
    match e
    case JoinRoomEvent(sid, roomId) => JoinRoom(s, sid, roomId)
    case CreateSendTransportEvent(sid, roomId, transport) => CreateSendTransport(s, sid, roomId, transport)
    case ConnectTransportEvent(sid, dtls, roomId) => ConnectTransport(s, sid, dtls, roomId)
    case ProduceEvent(sid, kind, rtp, roomId, producer) => Produce(s, sid, kind, rtp, roomId, producer)
    case DisconnectEvent(sid) => Disconnect(s, sid)
  }

  /** The registry after handling `events` in order, starting from `s`. */
  function Run(s: State, events: seq<Event>): (r: State)
    ensures r.capabilities == s.capabilities
    // the record of engine calls only ever grows at its end
    ensures |s.calls| <= |r.calls| && r.calls[..|s.calls|] == s.calls
    decreases |events|
  {
    if events == [] then s else Run(Step(s, events[0]).state, events[1..])
  }

  /**
   * Handlers only touch the entries of their own socket: events of other sockets
   * leave a socket's transport and producer entries as they were.
   */
  lemma {:induction false} OtherSocketsUntouched(s: State, events: seq<Event>, sid: SocketId)
    requires forall i :: 0 <= i < |events| ==> events[i].sid != sid
    ensures Lookup(Run(s, events).transports, sid) == Lookup(s.transports, sid)
    ensures Lookup(Run(s, events).producers, sid) == Lookup(s.producers, sid)
    decreases |events|
  {
    if events != [] {
      var next := Step(s, events[0]).state;
      assert Lookup(next.transports, sid) == Lookup(s.transports, sid);
      assert Lookup(next.producers, sid) == Lookup(s.producers, sid);
      OtherSocketsUntouched(next, events[1..], sid);
    }
  }

  function Repeat(e: Event, n: nat): (r: seq<Event>)
    ensures |r| == n && forall i :: 0 <= i < n ==> r[i] == e
  {
    seq(n, _ => e)
  }

  /** Any number of `disconnect` events for a socket has the effect of the first one. */
  lemma {:induction false} RepeatedDisconnect(s: State, sid: SocketId, n: nat)
    requires n >= 1
    ensures Run(s, Repeat(DisconnectEvent(sid), n)) == Disconnect(s, sid).state
    decreases n
  {
    var once := Disconnect(s, sid).state;
    var events := Repeat(DisconnectEvent(sid), n);
    assert Run(s, events) == Run(once, events[1..]);
    if n == 1 {
      assert events[1..] == [];
    } else {
      assert events[1..] == Repeat(DisconnectEvent(sid), n - 1);
      RepeatedDisconnect(once, sid, n - 1);
      DisconnectIdempotent(s, sid);
    }
  }

  /** Ids of the transports the engine has created so far. */
  function CreatedTransports(calls: seq<EngineCall>): set<TransportId>
  {
    set i | 0 <= i < |calls| && calls[i].CreateWebRtcTransport? :: calls[i].createdTransport
  }

  /** Ids of the producers the engine has created so far. */
  function CreatedProducers(calls: seq<EngineCall>): set<ProducerId>
  {
    set i | 0 <= i < |calls| && calls[i].ProduceOn? :: calls[i].createdProducer
  }

  lemma CreatedAppend(calls: seq<EngineCall>, c: EngineCall)
    ensures CreatedTransports(calls + [c]) ==
            CreatedTransports(calls) + (if c.CreateWebRtcTransport? then {c.createdTransport} else {})
    ensures CreatedProducers(calls + [c]) ==
            CreatedProducers(calls) + (if c.ProduceOn? then {c.createdProducer} else {})
  {
    var all := calls + [c];
    assert forall i :: 0 <= i < |calls| ==> all[i] == calls[i];
    assert all[|calls|] == c;
  }

  /**
   * What holds of the transport entries in every registry the handlers can reach
   * when the engine hands out fresh ids: each registered transport was created by
   * the engine and is still open, no transport is registered under two sockets,
   * and only created transports are ever closed, each at most once.
   */
  ghost predicate TransportsConsistent(transports: map<SocketId, Transport>, calls: seq<EngineCall>)
  {
    && (forall sid :: sid in transports ==>
          transports[sid].id in CreatedTransports(calls) && multiset(calls)[CloseTransport(transports[sid].id)] == 0)
    && (forall a, b :: a in transports && b in transports && a != b ==> transports[a].id != transports[b].id)
    && (forall t :: multiset(calls)[CloseTransport(t)] <= (if t in CreatedTransports(calls) then 1 else 0))
  }

  /** The same for the producer entries. */
  ghost predicate ProducersConsistent(producers: map<SocketId, Producer>, calls: seq<EngineCall>)
  {
    && (forall sid :: sid in producers ==>
          producers[sid].id in CreatedProducers(calls) && multiset(calls)[CloseProducer(producers[sid].id)] == 0)
    && (forall a, b :: a in producers && b in producers && a != b ==> producers[a].id != producers[b].id)
    && (forall p :: multiset(calls)[CloseProducer(p)] <= (if p in CreatedProducers(calls) then 1 else 0))
  }

  ghost predicate Consistent(s: State)
  {
    TransportsConsistent(s.transports, s.calls) && ProducersConsistent(s.producers, s.calls)
  }

  /** The id the engine hands out while handling `e`, if it creates a handle, is new. */
  predicate FreshFor(s: State, e: Event)
  {
    && (e.CreateSendTransportEvent? ==> e.transport.id !in CreatedTransports(s.calls))
    && (e.ProduceEvent? ==> e.producer !in CreatedProducers(s.calls))
  }

  /** The engine never reuses an id: not one it used before `s`, nor one used earlier in `events`. */
  ghost predicate FreshIds(s: State, events: seq<Event>)
  {
    && (forall i :: 0 <= i < |events| ==> FreshFor(s, events[i]))
    && (forall i, j :: 0 <= i < j < |events| && events[i].CreateSendTransportEvent? && events[j].CreateSendTransportEvent?
          ==> events[i].transport.id != events[j].transport.id)
    && (forall i, j :: 0 <= i < j < |events| && events[i].ProduceEvent? && events[j].ProduceEvent?
          ==> events[i].producer != events[j].producer)
  }

  lemma InitialConsistent(capabilities: RtpCapabilities)
    ensures Consistent(Initial(capabilities))
  {
  }

  /** A call that closes no transport keeps the transport entries consistent. */
  lemma TransportsAppend(transports: map<SocketId, Transport>, calls: seq<EngineCall>, c: EngineCall)
    requires TransportsConsistent(transports, calls) && !c.CloseTransport?
    ensures TransportsConsistent(transports, calls + [c])
  {
    CreatedAppend(calls, c);
    assert multiset(calls + [c]) == multiset(calls) + multiset{c};
  }

  /** A call that closes no producer keeps the producer entries consistent. */
  lemma ProducersAppend(producers: map<SocketId, Producer>, calls: seq<EngineCall>, c: EngineCall)
    requires ProducersConsistent(producers, calls) && !c.CloseProducer?
    ensures ProducersConsistent(producers, calls + [c])
  {
    CreatedAppend(calls, c);
    assert multiset(calls + [c]) == multiset(calls) + multiset{c};
  }

  /** Registering a transport the engine has just created under a fresh id. */
  lemma TransportsRegister(transports: map<SocketId, Transport>, calls: seq<EngineCall>, sid: SocketId, t: Transport)
    requires TransportsConsistent(transports, calls) && t.id !in CreatedTransports(calls)
    ensures TransportsConsistent(transports[sid := t], calls + [CreateWebRtcTransport(SendTransportOptions, t.id)])
  {
    var c := CreateWebRtcTransport(SendTransportOptions, t.id);
    TransportsAppend(transports, calls, c);
    CreatedAppend(calls, c);
    assert multiset(calls + [c]) == multiset(calls) + multiset{c};
    assert multiset(calls)[CloseTransport(t.id)] == 0;
  }

  /** Registering a producer the engine has just created under a fresh id. */
  lemma ProducersRegister(producers: map<SocketId, Producer>, calls: seq<EngineCall>, sid: SocketId, p: Producer)
    requires ProducersConsistent(producers, calls) && p.id !in CreatedProducers(calls)
    ensures ProducersConsistent(producers[sid := p], calls + [ProduceOn(p.transport, p.kind, p.rtpParameters, p.id)])
  {
    var c := ProduceOn(p.transport, p.kind, p.rtpParameters, p.id);
    ProducersAppend(producers, calls, c);
    CreatedAppend(calls, c);
    assert multiset(calls + [c]) == multiset(calls) + multiset{c};
    assert multiset(calls)[CloseProducer(p.id)] == 0;
  }

  /** Closing a registered transport and dropping its entry. */
  lemma TransportsClose(transports: map<SocketId, Transport>, calls: seq<EngineCall>, sid: SocketId)
    requires TransportsConsistent(transports, calls) && sid in transports
    ensures TransportsConsistent(transports - {sid}, calls + [CloseTransport(transports[sid].id)])
  {
    var c := CloseTransport(transports[sid].id);
    CreatedAppend(calls, c);
    assert multiset(calls + [c]) == multiset(calls) + multiset{c};
  }

  /** Closing a registered producer and dropping its entry. */
  lemma ProducersClose(producers: map<SocketId, Producer>, calls: seq<EngineCall>, sid: SocketId)
    requires ProducersConsistent(producers, calls) && sid in producers
    ensures ProducersConsistent(producers - {sid}, calls + [CloseProducer(producers[sid].id)])
  {
    var c := CloseProducer(producers[sid].id);
    CreatedAppend(calls, c);
    assert multiset(calls + [c]) == multiset(calls) + multiset{c};
  }

  /** `disconnect` keeps the registry consistent. */
  lemma DisconnectConsistent(s: State, sid: SocketId)
    requires Consistent(s)
    ensures Consistent(Disconnect(s, sid).state)
  {
    var mid := CloseSocketTransport(s, sid);
    if sid in s.transports {
      TransportsClose(s.transports, s.calls, sid);
      ProducersAppend(s.producers, s.calls, CloseTransport(s.transports[sid].id));
    }
    var r := CloseSocketProducer(mid, sid);
    if sid in mid.producers {
      ProducersClose(mid.producers, mid.calls, sid);
      TransportsAppend(mid.transports, mid.calls, CloseProducer(mid.producers[sid].id));
    }
  }

  /** Every handler keeps the registry consistent, provided the engine's new id is fresh. */
  lemma StepConsistent(s: State, e: Event)
    requires Consistent(s) && FreshFor(s, e)
    ensures Consistent(Step(s, e).state)
  {
    match e
    case JoinRoomEvent(_, _) =>
    case CreateSendTransportEvent(sid, roomId, transport) =>
      TransportsRegister(s.transports, s.calls, sid, transport);
      ProducersAppend(s.producers, s.calls, CreateWebRtcTransport(SendTransportOptions, transport.id));
    case ConnectTransportEvent(sid, dtls, roomId) =>
      if sid in s.transports {
        var c := Connect(s.transports[sid].id, dtls);
        TransportsAppend(s.transports, s.calls, c);
        ProducersAppend(s.producers, s.calls, c);
      }
    case ProduceEvent(sid, kind, rtp, roomId, producer) =>
      if sid in s.transports {
        var p := Producer(producer, kind, rtp, s.transports[sid].id);
        ProducersRegister(s.producers, s.calls, sid, p);
        TransportsAppend(s.transports, s.calls, ProduceOn(p.transport, p.kind, p.rtpParameters, p.id));
      }
    case DisconnectEvent(sid) =>
      DisconnectConsistent(s, sid);
  }

  /** The engine ids a handler adds to the record are at most the one carried by its event. */
  lemma StepCreated(s: State, e: Event)
    ensures CreatedTransports(Step(s, e).state.calls) <=
            CreatedTransports(s.calls) + (if e.CreateSendTransportEvent? then {e.transport.id} else {})
    ensures CreatedProducers(Step(s, e).state.calls) <=
            CreatedProducers(s.calls) + (if e.ProduceEvent? then {e.producer} else {})
  {
    var r := Step(s, e).state;
    if e.DisconnectEvent? {
      var mid := CloseSocketTransport(s, e.sid);
      if mid.calls != s.calls {
        CreatedAppend(s.calls, mid.calls[|s.calls|]);
        assert mid.calls == s.calls + [mid.calls[|s.calls|]];
      }
      if r.calls != mid.calls {
        CreatedAppend(mid.calls, r.calls[|mid.calls|]);
        assert r.calls == mid.calls + [r.calls[|mid.calls|]];
      }
    } else if r.calls != s.calls {
      CreatedAppend(s.calls, r.calls[|s.calls|]);
      assert r.calls == s.calls + [r.calls[|s.calls|]];
    }
  }

  /** Fresh ids for a history are fresh for its first event, and for the rest after it. */
  lemma FreshIdsTail(s: State, events: seq<Event>)
    requires events != [] && FreshIds(s, events)
    ensures FreshFor(s, events[0])
    ensures FreshIds(Step(s, events[0]).state, events[1..])
  {
    var next := Step(s, events[0]).state;
    var rest := events[1..];
    StepCreated(s, events[0]);
    forall i | 0 <= i < |rest| ensures FreshFor(next, rest[i]) {
      assert rest[i] == events[i + 1];
      assert FreshFor(s, events[i + 1]);
    }
    forall i, j | 0 <= i < j < |rest| && rest[i].CreateSendTransportEvent? && rest[j].CreateSendTransportEvent?
      ensures rest[i].transport.id != rest[j].transport.id
    {
      assert rest[i] == events[i + 1] && rest[j] == events[j + 1];
    }
    forall i, j | 0 <= i < j < |rest| && rest[i].ProduceEvent? && rest[j].ProduceEvent?
      ensures rest[i].producer != rest[j].producer
    {
      assert rest[i] == events[i + 1] && rest[j] == events[j + 1];
    }
  }

  /**
   * Over any history in which the engine hands out fresh ids, the registry stays
   * consistent; in particular no transport and no producer is ever closed twice,
   * however many times a socket disconnects.
   */
  lemma {:induction false} RunConsistent(s: State, events: seq<Event>)
    requires Consistent(s) && FreshIds(s, events)
    ensures Consistent(Run(s, events))
    ensures forall t :: multiset(Run(s, events).calls)[CloseTransport(t)] <= 1
    ensures forall p :: multiset(Run(s, events).calls)[CloseProducer(p)] <= 1
    decreases |events|
  {
    if events != [] {
      FreshIdsTail(s, events);
      StepConsistent(s, events[0]);
      RunConsistent(Step(s, events[0]).state, events[1..]);
    }
  }

  /**
   * A whole publishing session of one peer: join, create the send transport,
   * connect it, produce, disconnect. Every request but the disconnect is answered
   * with the handle the engine created; the engine sees the five calls in this
   * order, the transport closed before the producer; the peer leaves no entry behind.
   */
  lemma {:induction false} PublishSession(s: State, sid: SocketId, roomId: RoomId, t: Transport,
                                          dtls: DtlsParameters, kind: MediaKind, rtp: RtpParameters, pid: ProducerId)
    ensures var join := Step(s, JoinRoomEvent(sid, roomId));
            var create := Step(join.state, CreateSendTransportEvent(sid, roomId, t));
            var connect := Step(create.state, ConnectTransportEvent(sid, dtls, roomId));
            var produce := Step(connect.state, ProduceEvent(sid, kind, rtp, roomId, pid));
            var disconnect := Step(produce.state, DisconnectEvent(sid));
            && join.ack == Some(Capabilities(s.capabilities))
            && create.ack == Some(TransportInfo(t.id, t.iceParameters, t.iceCandidates, t.dtlsParameters))
            && connect.ack == Some(Connected)
            && produce.ack == Some(ProducerInfo(pid))
            && disconnect.ack == None
            && Run(s, [JoinRoomEvent(sid, roomId), CreateSendTransportEvent(sid, roomId, t),
                       ConnectTransportEvent(sid, dtls, roomId), ProduceEvent(sid, kind, rtp, roomId, pid),
                       DisconnectEvent(sid)]) == disconnect.state
            && sid !in disconnect.state.transports && sid !in disconnect.state.producers
            && disconnect.state.calls ==
                 s.calls + [CreateWebRtcTransport(SendTransportOptions, t.id), Connect(t.id, dtls),
                            ProduceOn(t.id, kind, rtp, pid), CloseTransport(t.id), CloseProducer(pid)]
  {
    var e1, e2, e3 := JoinRoomEvent(sid, roomId), CreateSendTransportEvent(sid, roomId, t), ConnectTransportEvent(sid, dtls, roomId);
    var e4, e5 := ProduceEvent(sid, kind, rtp, roomId, pid), DisconnectEvent(sid);
    var s1 := Step(s, e1).state;
    var s2 := Step(s1, e2).state;
    var s3 := Step(s2, e3).state;
    var s4 := Step(s3, e4).state;
    var s5 := Step(s4, e5).state;
    assert Run(s, [e1, e2, e3, e4, e5]) == s5 by {
      assert [e1, e2, e3, e4, e5][1..] == [e2, e3, e4, e5];
      assert Run(s, [e1, e2, e3, e4, e5]) == Run(s1, [e2, e3, e4, e5]);
      assert [e2, e3, e4, e5][1..] == [e3, e4, e5];
      assert Run(s1, [e2, e3, e4, e5]) == Run(s2, [e3, e4, e5]);
      assert [e3, e4, e5][1..] == [e4, e5];
      assert Run(s2, [e3, e4, e5]) == Run(s3, [e4, e5]);
      assert [e4, e5][1..] == [e5];
      assert Run(s3, [e4, e5]) == Run(s4, [e5]);
      assert Run(s4, [e5]) == Run(s5, []);
    }
    assert s1 == s;
    var c2 := s.calls + [CreateWebRtcTransport(SendTransportOptions, t.id)];
    assert s2.calls == c2 && s2.transports[sid] == t;
    var c3 := c2 + [Connect(t.id, dtls)];
    assert s3.calls == c3 && s3.transports == s2.transports;
    var c4 := c3 + [ProduceOn(t.id, kind, rtp, pid)];
    assert s4.calls == c4 && s4.producers[sid].id == pid && s4.transports == s3.transports;
    var mid := CloseSocketTransport(s4, sid);
    assert mid.calls == c4 + [CloseTransport(t.id)] && mid.producers == s4.producers;
    assert s5 == CloseSocketProducer(mid, sid);
    assert s5.calls == mid.calls + [CloseProducer(pid)];
  }

  /**
   * `createSendTransport` overwrites the socket's entry without closing the old
   * transport, so a transport that is replaced is never closed, not even when the
   * socket disconnects: the engine keeps it while the registry has forgotten it.
   */
  lemma ReplacedTransportNeverClosed(s: State, sid: SocketId, roomId: RoomId, first: Transport, second: Transport)
    requires first.id != second.id && CloseTransport(first.id) !in s.calls
    ensures var r := Run(s, [CreateSendTransportEvent(sid, roomId, first), CreateSendTransportEvent(sid, roomId, second),
                             DisconnectEvent(sid)]);
            && CloseTransport(first.id) !in r.calls
            && CloseTransport(second.id) in r.calls
            && r.transports == s.transports - {sid}
  {
    var e1 := CreateSendTransportEvent(sid, roomId, first);
    var e2 := CreateSendTransportEvent(sid, roomId, second);
    var e3 := DisconnectEvent(sid);
    var s1 := Step(s, e1).state;
    var s2 := Step(s1, e2).state;
    var s3 := Step(s2, e3).state;
    assert Run(s, [e1, e2, e3]) == Run(s1, [e2, e3]) == Run(s2, [e3]) == s3 by {
      assert [e1, e2, e3][1..] == [e2, e3];
      assert [e2, e3][1..] == [e3];
    }
    var created := s.calls + [CreateWebRtcTransport(SendTransportOptions, first.id),
                              CreateWebRtcTransport(SendTransportOptions, second.id)];
    assert s2.calls == created && s2.transports[sid] == second;
    var mid := CloseSocketTransport(s2, sid);
    assert mid.calls == created + [CloseTransport(second.id)];
    assert s3 == CloseSocketProducer(mid, sid);
    assert s3.calls[..|mid.calls|] == mid.calls;
    assert CloseTransport(first.id) !in mid.calls;
  }

  /**
   * `produce` likewise overwrites the socket's producer without closing it: a
   * producer replaced by a second `produce` never gets a close call of its own,
   * while the second one does. The first is closed only through its transport,
   * which the engine closes together with every producer made on it.
   */
  lemma ReplacedProducerNotClosedDirectly(s: State, sid: SocketId, roomId: RoomId, kind: MediaKind, rtp: RtpParameters,
                                    first: ProducerId, second: ProducerId)
    requires sid in s.transports && first != second && CloseProducer(first) !in s.calls
    ensures var r := Run(s, [ProduceEvent(sid, kind, rtp, roomId, first), ProduceEvent(sid, kind, rtp, roomId, second),
                             DisconnectEvent(sid)]);
            && CloseProducer(first) !in r.calls
            && CloseProducer(second) in r.calls
            && CloseTransport(s.transports[sid].id) in r.calls
            && r.producers == s.producers - {sid}
  {
    var e1 := ProduceEvent(sid, kind, rtp, roomId, first);
    var e2 := ProduceEvent(sid, kind, rtp, roomId, second);
    var e3 := DisconnectEvent(sid);
    var s1 := Step(s, e1).state;
    var s2 := Step(s1, e2).state;
    var s3 := Step(s2, e3).state;
    assert Run(s, [e1, e2, e3]) == Run(s1, [e2, e3]) == Run(s2, [e3]) == s3 by {
      assert [e1, e2, e3][1..] == [e2, e3];
      assert [e2, e3][1..] == [e3];
    }
    var t := s.transports[sid].id;
    assert s2.calls == s.calls + [ProduceOn(t, kind, rtp, first), ProduceOn(t, kind, rtp, second)];
    assert s2.producers[sid].id == second && s2.transports == s.transports;
    var mid := CloseSocketTransport(s2, sid);
    assert mid.calls == s2.calls + [CloseTransport(t)];
    assert s3 == CloseSocketProducer(mid, sid);
    assert s3.calls == mid.calls + [CloseProducer(second)];
  }

  /**
   * In a consistent registry, `disconnect` leaves each handle registered for the
   * socket with exactly one close call in the whole engine record.
   */
  lemma DisconnectClosesExactlyOnce(s: State, sid: SocketId)
    requires Consistent(s)
    ensures var calls := multiset(Disconnect(s, sid).state.calls);
            && (sid in s.transports ==> calls[CloseTransport(s.transports[sid].id)] == 1)
            && (sid in s.producers ==> calls[CloseProducer(s.producers[sid].id)] == 1)
  {
    DisconnectClosesOnce(s, sid);
  }
}
