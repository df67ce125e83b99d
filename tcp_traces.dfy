/** Whole scenarios of the reducer: the three-way handshake, a data round trip, the
    four-segment close (in two halves), the simultaneous-close branch and a stale timer after reset. Each
    delivery step hands the newest packet of the history to RECEIVE_PACKET, as the
    animation does once that packet arrives. */
module TcpTraces {
  import opened TcpStates
  import opened TcpTypes
  import opened TcpSimulation

  /** RECEIVE_PACKET of the most recently created packet (no change on an empty history). */
  function DeliverNewest(s: ConnectionState, d: Draw): ConnectionState {
    if |s.packets| == 0 then s else TcpReducer(s, ReceivePacket(s.packets[|s.packets| - 1]), d)
  }

  /** The kinds of the packets of `packets` from position `from` on are `kinds`. */
  predicate KindsFrom(packets: seq<Packet>, from: nat, kinds: seq<PacketType>) {
    from + |kinds| == |packets| && forall i :: 0 <= i < |kinds| ==> packets[from + i].kind == kinds[i]
  }

  /** From a listening server: START_HANDSHAKE, then delivering SYN, SYN-ACK and ACK in turn,
      establishes both sides with three new segments, each side's sequence number one past
      its ISN and each side acknowledging the other's ISN plus one. */
  lemma HandshakeTrace(s0: ConnectionState, d1: Draw, d2: Draw, d3: Draw, d4: Draw)
    requires s0.serverState == Listen
    ensures var s1 := TcpReducer(s0, StartHandshake, d1);
      var s2 := DeliverNewest(s1, d2);
      var s3 := DeliverNewest(s2, d3);
      var s4 := DeliverNewest(s3, d4);
      && s1.clientState == SynSent && s1.serverState == Listen
      && s2.clientState == SynSent && s2.serverState == SynReceived
      && s3.clientState == Established && s3.serverState == SynReceived
      && s4.clientState == Established && s4.serverState == Established
      && s4.isActive
      && |s4.packets| == |s0.packets| + 3
      && KindsFrom(s4.packets, |s0.packets|, [Syn, SynAck, Ack])
      && s4.clientSequenceNumber == d1.isn + 1 && s4.serverSequenceNumber == d2.isn + 1
      && s4.clientAcknowledgmentNumber == d2.isn + 1
      && s4.serverAcknowledgmentNumber == d1.isn + 1
  {
    var s1 := TcpReducer(s0, StartHandshake, d1);
    var s2 := DeliverNewest(s1, d2);
    var s3 := DeliverNewest(s2, d3);
    var s4 := DeliverNewest(s3, d4);
    var n := |s0.packets|;
    assert |s1.packets| == n + 1 && s1.packets[n].kind == Syn;
    assert |s2.packets| == n + 2 && s2.packets[n].kind == Syn && s2.packets[n + 1].kind == SynAck;
    assert |s3.packets| == n + 3 && s3.packets[n + 2].kind == Ack;
    assert s4.packets == s3.packets;
  }

  /** From the initial state the first START_HANDSHAKE only opens the listener, so it takes
      two of them before the handshake runs; the history then holds exactly the three
      handshake segments. */
  lemma HandshakeFromInitialState(d0: Draw, d1: Draw, d2: Draw, d3: Draw, d4: Draw)
    ensures var s0 := TcpReducer(InitialConnectionState, StartHandshake, d0);
      var s4 := DeliverNewest(DeliverNewest(DeliverNewest(TcpReducer(s0, StartHandshake, d1), d2), d3), d4);
      && s0.serverState == Listen && s0.clientState == Closed && s0.packets == []
      && s4.clientState == Established && s4.serverState == Established
      && KindsFrom(s4.packets, 0, [Syn, SynAck, Ack])
  {
    var s0 := TcpReducer(InitialConnectionState, StartHandshake, d0);
    HandshakeTrace(s0, d1, d2, d3, d4);
  }

  /** Client data and its acknowledgment: the server's ACK carries the client's advanced
      sequence number, which the server records as its acknowledgment number. */
  lemma ClientDataRoundTrip(s0: ConnectionState, d1: Draw, d2: Draw)
    requires s0.clientState == Established && s0.serverState == Established
    ensures var s1 := TcpReducer(s0, SendData, d1);
      var s2 := DeliverNewest(s1, d2);
      && |s2.packets| == |s0.packets| + 2
      && KindsFrom(s2.packets, |s0.packets|, [Data, Ack])
      && s2.clientSequenceNumber == s0.clientSequenceNumber + 59
      && s2.serverAcknowledgmentNumber == s2.clientSequenceNumber
      && s2.packets[|s0.packets| + 1].acknowledgmentNumber == s2.clientSequenceNumber
      && s2.clientState == Established && s2.serverState == Established && s2.dataExchanged
  {
    var s1 := TcpReducer(s0, SendData, d1);
    var s2 := DeliverNewest(s1, d2);
    var n := |s0.packets|;
    assert s1.packets[n].kind == Data && s1.packets[n].from == Client;
  }

  /** Server data and its acknowledgment, the mirror image. */
  lemma ServerDataRoundTrip(s0: ConnectionState, d1: Draw, d2: Draw)
    requires s0.clientState == Established && s0.serverState == Established
    ensures var s1 := TcpReducer(s0, SendDataServer, d1);
      var s2 := DeliverNewest(s1, d2);
      && |s2.packets| == |s0.packets| + 2
      && KindsFrom(s2.packets, |s0.packets|, [Data, Ack])
      && s2.serverSequenceNumber == s0.serverSequenceNumber + 62
      && s2.clientAcknowledgmentNumber == s2.serverSequenceNumber
      && s2.packets[|s0.packets| + 1].acknowledgmentNumber == s2.serverSequenceNumber
      && s2.clientState == Established && s2.serverState == Established && s2.dataExchanged
  {
    var s1 := TcpReducer(s0, SendDataServer, d1);
    var s2 := DeliverNewest(s1, d2);
    var n := |s0.packets|;
    assert s1.packets[n].kind == Data && s1.packets[n].from == Server;
  }

  /** The active close, driven as the animation drives it, in two halves whose common state
      is FIN_WAIT_2 / CLOSE_WAIT. The client's half: CLOSE_CONNECTION, the FIN delivered and
      its ACK delivered. */
  lemma CloseFirstHalf(s0: ConnectionState, s1: ConnectionState, s2: ConnectionState,
                             s3: ConnectionState, d1: Draw, d2: Draw, d3: Draw)
    requires s0.clientState == Established && s0.serverState == Established
    requires s1 == TcpReducer(s0, CloseConnection, d1)
    requires s2 == DeliverNewest(s1, d2)
    requires s3 == DeliverNewest(s2, d3)
    ensures s1.clientState == FinWait1 && s1.serverState == Established
    ensures s2.clientState == FinWait1 && s2.serverState == CloseWait
    ensures s3.clientState == FinWait2 && s3.serverState == CloseWait
    ensures |s3.packets| == |s0.packets| + 2
    ensures KindsFrom(s3.packets, |s0.packets|, [Fin, Ack])
    ensures s3.clientSequenceNumber == s0.clientSequenceNumber + 1
    ensures s3.serverSequenceNumber == s0.serverSequenceNumber
    ensures s3.serverAcknowledgmentNumber == s0.clientSequenceNumber + 1
  {
    var n := |s0.packets|;
    assert s1.packets[n].kind == Fin && s1.packets[n].from == Client;
    assert |s2.packets| == n + 2 && s2.packets[n + 1].kind == Ack && s2.packets[n + 1].from == Server;
    assert s3.packets == s2.packets;
  }

  /** The server's half, from the state the client's half ends in: the delayed
      CONTINUE_SERVER_CLOSE, the server's FIN delivered, the last ACK delivered and the
      TIME_WAIT timeout. Both sides end CLOSED; the server's FIN does not consume a sequence
      slot on this path, yet the client acknowledges one past the server's counter. */
  lemma CloseSecondHalf(s3: ConnectionState, s4: ConnectionState, s5: ConnectionState,
                               s6: ConnectionState, s7: ConnectionState,
                               d4: Draw, d5: Draw, d6: Draw, d7: Draw)
    requires s3.clientState == FinWait2 && s3.serverState == CloseWait
    requires s4 == TcpReducer(s3, ContinueServerClose, d4)
    requires s5 == DeliverNewest(s4, d5)
    requires s6 == DeliverNewest(s5, d6)
    requires s7 == TcpReducer(s6, Timeout, d7)
    ensures s4.clientState == FinWait2 && s4.serverState == LastAck
    ensures s5.clientState == TimeWait && s5.serverState == LastAck
    ensures s6.clientState == TimeWait && s6.serverState == Closed
    ensures s7.clientState == Closed && s7.serverState == Closed && !s7.isActive
    ensures |s7.packets| == |s3.packets| + 2
    ensures KindsFrom(s7.packets, |s3.packets|, [Fin, Ack])
    ensures s7.clientSequenceNumber == s3.clientSequenceNumber
    ensures s7.serverSequenceNumber == s3.serverSequenceNumber
    ensures s7.serverAcknowledgmentNumber == s3.serverAcknowledgmentNumber
    ensures s7.clientAcknowledgmentNumber == s3.serverSequenceNumber + 1
    ensures forall i :: 0 <= i < |s3.packets| ==> s7.packets[i].kind == s3.packets[i].kind
  {
    CloseServerFin(s3, s4, s5, d4, d5);
    CloseLastAck(s5, s6, s7, d6, d7);
  }

  /** CONTINUE_SERVER_CLOSE from FIN_WAIT_2 / CLOSE_WAIT, then its FIN delivered. */
  lemma CloseServerFin(s3: ConnectionState, s4: ConnectionState, s5: ConnectionState, d4: Draw, d5: Draw)
    requires s3.clientState == FinWait2 && s3.serverState == CloseWait
    requires s4 == TcpReducer(s3, ContinueServerClose, d4)
    requires s5 == DeliverNewest(s4, d5)
    ensures s4.clientState == FinWait2 && s4.serverState == LastAck
    ensures s5.clientState == TimeWait && s5.serverState == LastAck
    ensures |s5.packets| == |s3.packets| + 2
    ensures KindsFrom(s5.packets, |s3.packets|, [Fin, Ack])
    ensures s5.packets[|s3.packets| + 1].from == Client
    ensures s5.clientSequenceNumber == s3.clientSequenceNumber
    ensures s5.serverSequenceNumber == s3.serverSequenceNumber
    ensures s5.serverAcknowledgmentNumber == s3.serverAcknowledgmentNumber
    ensures s5.clientAcknowledgmentNumber == s3.serverSequenceNumber + 1
    ensures forall i :: 0 <= i < |s3.packets| ==> s5.packets[i].kind == s3.packets[i].kind
  {
    var n := |s3.packets|;
    assert |s4.packets| == n + 1 && s4.packets[n].kind == Fin && s4.packets[n].from == Server;
    assert |s5.packets| == n + 2 && s5.packets[n + 1].kind == Ack && s5.packets[n + 1].from == Client;
  }

  /** The client's last ACK delivered to LAST_ACK, then the TIME_WAIT timeout: both sides
      CLOSED, the history and the counters untouched. */
  lemma CloseLastAck(s5: ConnectionState, s6: ConnectionState, s7: ConnectionState, d6: Draw, d7: Draw)
    requires s5.clientState == TimeWait && s5.serverState == LastAck
    requires |s5.packets| > 0
    requires s5.packets[|s5.packets| - 1].kind == Ack && s5.packets[|s5.packets| - 1].from == Client
    requires s6 == DeliverNewest(s5, d6)
    requires s7 == TcpReducer(s6, Timeout, d7)
    ensures s6.clientState == TimeWait && s6.serverState == Closed
    ensures s7.clientState == Closed && s7.serverState == Closed && !s7.isActive
    ensures s7.packets == s5.packets
    ensures s7.clientSequenceNumber == s5.clientSequenceNumber
    ensures s7.serverSequenceNumber == s5.serverSequenceNumber
    ensures s7.clientAcknowledgmentNumber == s5.clientAcknowledgmentNumber
    ensures s7.serverAcknowledgmentNumber == s5.serverAcknowledgmentNumber
  {
  }

  /** Simultaneous close: a server FIN reaching a client in FIN_WAIT_1 leads to CLOSING, and
      any ACK from the server then leads to TIME_WAIT, unless the server is itself still in
      SYN_RECEIVED (whose rule comes first). */
  lemma SimultaneousCloseTrace(s0: ConnectionState, fin: Packet, ack: Packet, d1: Draw, d2: Draw)
    requires s0.clientState == FinWait1
    requires fin.kind == Fin && fin.from == Server
    requires ack.kind == Ack && ack.from == Server && s0.serverState != SynReceived
    ensures var s1 := TcpReducer(s0, ReceivePacket(fin), d1);
      var s2 := TcpReducer(s1, ReceivePacket(ack), d2);
      && s1.clientState == Closing && s1.clientAcknowledgmentNumber == fin.sequenceNumber + 1
      && s2.clientState == TimeWait && s2.serverState == s0.serverState
  {
  }

  /** RESET_CONNECTION does not cancel a pending CONTINUE_SERVER_CLOSE, and the reducer does
      not guard it: firing it after a reset drives the freshly listening server to LAST_ACK
      and emits a FIN into the new, empty history. A stale TIMEOUT, by contrast, is
      harmless. */
  lemma StaleTimersAfterReset(s: ConnectionState, d1: Draw, d2: Draw)
    ensures var r := TcpReducer(TcpReducer(s, ResetConnection, d1), ContinueServerClose, d2);
      && r.serverState == LastAck && r.clientState == Closed
      && |r.packets| == 1 && r.packets[0].kind == Fin && r.packets[0].from == Server
    ensures var r := TcpReducer(s, ResetConnection, d1);
      TcpReducer(r, Timeout, d2) == r
  {
  }
}
