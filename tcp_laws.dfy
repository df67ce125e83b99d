/** Single-action laws of the reducer: what each action changes, what it leaves alone,
    and the history and sequence-number invariants every action keeps. */
module TcpLaws {
  import opened TcpStates
  import opened TcpTypes
  import opened TcpSimulation

  /** `q` is `p` after delivery bookkeeping: only `delivered` and the progress may differ. */
  predicate SameSegment(p: Packet, q: Packet) {
    p.(delivered := q.delivered, animation := p.animation.(progress := q.animation.progress)) == q
  }

  /** `next` keeps every packet of `prev` in place (changing at most its delivery bookkeeping,
      never un-delivering it) and appends at most one fresh, undelivered packet with id `id`
      that travels for `speed` milliseconds. */
  predicate ExtendsHistory(prev: seq<Packet>, next: seq<Packet>, id: PacketId, speed: int) {
    && |prev| <= |next| <= |prev| + 1
    && (forall i :: 0 <= i < |prev| ==> SameSegment(prev[i], next[i]))
    && (forall i :: 0 <= i < |prev| && prev[i].delivered ==> next[i].delivered)
    && (|next| == |prev| + 1 ==>
          && next[|prev|].id == id
          && !next[|prev|].delivered
          && next[|prev|].animation == Animation(0.0, speed))
  }

  /** Marking delivered sets the flag of exactly the packets with that id and changes
      nothing else; so it extends the history, appending nothing. */
  lemma MarkDeliveredExtends(packets: seq<Packet>, id: PacketId, newId: PacketId, speed: int)
    ensures |MarkDelivered(packets, id)| == |packets|
    ensures forall i :: 0 <= i < |packets| ==>
      MarkDelivered(packets, id)[i] == if packets[i].id == id then packets[i].(delivered := true) else packets[i]
    ensures ExtendsHistory(packets, MarkDelivered(packets, id), newId, speed)
  {
  }

  /** Appending a fresh packet to a history that extends `prev` without growing it. */
  lemma AppendExtends(prev: seq<Packet>, next: seq<Packet>, p: Packet, speed: int)
    requires |next| == |prev| && ExtendsHistory(prev, next, p.id, speed)
    requires !p.delivered && p.animation == Animation(0.0, speed)
    ensures ExtendsHistory(prev, next + [p], p.id, speed)
  {
  }

  lemma TickExtends(packets: seq<Packet>, id: PacketId, speed: int)
    ensures ExtendsHistory(packets, TickPackets(packets), id, speed)
  {
  }

  lemma ReceiveKeepsHistory(s: ConnectionState, p: Packet, d: Draw)
    ensures ExtendsHistory(s.packets, Receive(s, p, d).packets, d.id, s.animationSpeed)
  {
    var marked := MarkDelivered(s.packets, p.id);
    var r := Receive(s, p, d).packets;
    var rule := MatchRule(s, p);
    MarkDeliveredExtends(s.packets, p.id, d.id, s.animationSpeed);
    if rule in {Some(AckAtSynReceived), Some(ServerAckAtFinWait1), Some(ClientAckAtLastAck), Some(AckAtClosing)} {
      assert r == s.packets;
    } else if rule != None {
      var q := r[|s.packets|];
      assert r == marked + [q];
      AppendExtends(s.packets, marked, q, s.animationSpeed);
    }
  }

  /** Every action except RESET_CONNECTION keeps the history: nothing is removed, reordered
      or un-delivered, and at most one packet is appended, carrying the drawn id and the
      current animation speed. RESET_CONNECTION discards the history. */
  lemma ReducerKeepsHistory(s: ConnectionState, a: Action, d: Draw)
    ensures a != ResetConnection ==>
      ExtendsHistory(s.packets, TcpReducer(s, a, d).packets, d.id, s.animationSpeed)
    ensures a == ResetConnection ==> TcpReducer(s, a, d).packets == []
  {
    match a
    case ReceivePacket(p) => ReceiveKeepsHistory(s, p, d);
    case Tick => TickExtends(s.packets, d.id, s.animationSpeed);
    case _ =>
  }

  /** START_HANDSHAKE while the server is not listening only arms the listener. */
  lemma StartHandshakeArmsListener(s: ConnectionState, d: Draw)
    requires s.serverState != Listen
    ensures TcpReducer(s, StartHandshake, d) == s.(serverState := Listen)
  {
  }

  /** START_HANDSHAKE with the server listening sends the client's SYN from the drawn ISN,
      which consumes one sequence slot. */
  lemma StartHandshakeSendsSyn(s: ConnectionState, d: Draw)
    requires s.serverState == Listen
    ensures var r := TcpReducer(s, StartHandshake, d);
      && r.clientState == SynSent && r.serverState == Listen
      && r.clientSequenceNumber == d.isn + 1
      && r.serverSequenceNumber == s.serverSequenceNumber
      && r.isActive
      && r == s.(clientState := SynSent, clientSequenceNumber := d.isn + 1, packets := r.packets,
                 isActive := true, currentStep := r.currentStep)
      && |r.packets| == |s.packets| + 1 && r.packets[..|s.packets|] == s.packets
      && var syn := r.packets[|s.packets|];
         syn.kind == Syn && syn.from == Client && syn.to == Server
         && syn.sequenceNumber == d.isn && syn.acknowledgmentNumber == 0
  {
  }

  /** Without a matching rule, RECEIVE_PACKET only marks the packet delivered. */
  lemma ReceiveUnmatched(s: ConnectionState, p: Packet, d: Draw)
    requires MatchRule(s, p) == None
    ensures TcpReducer(s, ReceivePacket(p), d) == s.(packets := MarkDelivered(s.packets, p.id))
    ensures forall i :: 0 <= i < |s.packets| ==>
      TcpReducer(s, ReceivePacket(p), d).packets[i] ==
        if s.packets[i].id == p.id then s.packets[i].(delivered := true) else s.packets[i]
  {
  }

  /** A rule matches exactly when RECEIVE_PACKET does more than mark the packet delivered. */
  lemma ReceiveMatchesIffEffect(s: ConnectionState, p: Packet, d: Draw)
    ensures MatchRule(s, p).Some? <==>
      TcpReducer(s, ReceivePacket(p), d) != s.(packets := MarkDelivered(s.packets, p.id))
  {
    var r := TcpReducer(s, ReceivePacket(p), d);
    var marked := MarkDelivered(s.packets, p.id);
    if MatchRule(s, p).Some? && MatchRule(s, p).value in {SynAtListen, SynAckAtSynSent,
      ClientFinAtEstablished, ServerFinAtFinWait, ClientData, ServerData} {
      assert |r.packets| == |marked| + 1;
    }
  }

  /** The four pure-ACK rules return the history untouched: they do not even mark the
      received packet delivered. */
  lemma PureAckRulesKeepHistory(s: ConnectionState, p: Packet, d: Draw)
    requires MatchRule(s, p) in {Some(AckAtSynReceived), Some(ServerAckAtFinWait1),
                                 Some(ClientAckAtLastAck), Some(AckAtClosing)}
    ensures TcpReducer(s, ReceivePacket(p), d).packets == s.packets
    ensures p.kind == Ack
  {
  }

  /** SEND_DATA is a no-op unless both parties are ESTABLISHED; otherwise it appends one DATA
      packet stamped with the client's counters and advances the client's sequence number
      by the 59-character payload. */
  lemma SendDataLaw(s: ConnectionState, d: Draw)
    ensures s.clientState != Established || s.serverState != Established ==>
      TcpReducer(s, SendData, d) == s
    ensures s.clientState == Established && s.serverState == Established ==>
      var r := TcpReducer(s, SendData, d);
      && |ClientPayload| == 59
      && r.clientSequenceNumber == s.clientSequenceNumber + 59
      && r.serverSequenceNumber == s.serverSequenceNumber
      && r.dataExchanged
      && r.clientState == s.clientState && r.serverState == s.serverState
      && r == s.(clientSequenceNumber := s.clientSequenceNumber + 59, packets := r.packets,
                 dataExchanged := true, currentStep := r.currentStep)
      && |r.packets| == |s.packets| + 1 && r.packets[..|s.packets|] == s.packets
      && var p := r.packets[|s.packets|];
         p.kind == Data && p.from == Client && p.to == Server
         && p.sequenceNumber == s.clientSequenceNumber
         && p.acknowledgmentNumber == s.clientAcknowledgmentNumber
         && p.payload == Some(ClientPayload)
  {
  }

  /** SEND_DATA_SERVER likewise, from the server, with the 62-character payload. */
  lemma SendDataServerLaw(s: ConnectionState, d: Draw)
    ensures s.clientState != Established || s.serverState != Established ==>
      TcpReducer(s, SendDataServer, d) == s
    ensures s.clientState == Established && s.serverState == Established ==>
      var r := TcpReducer(s, SendDataServer, d);
      && |ServerPayload| == 62
      && r.serverSequenceNumber == s.serverSequenceNumber + 62
      && r.clientSequenceNumber == s.clientSequenceNumber
      && r.dataExchanged
      && r.clientState == s.clientState && r.serverState == s.serverState
      && r == s.(serverSequenceNumber := s.serverSequenceNumber + 62, packets := r.packets,
                 dataExchanged := true, currentStep := r.currentStep)
      && |r.packets| == |s.packets| + 1 && r.packets[..|s.packets|] == s.packets
      && var p := r.packets[|s.packets|];
         p.kind == Data && p.from == Server && p.to == Client
         && p.sequenceNumber == s.serverSequenceNumber
         && p.acknowledgmentNumber == s.serverAcknowledgmentNumber
         && p.payload == Some(ServerPayload)
  {
  }

  /** Delivering the client's DATA to an ESTABLISHED server makes the server acknowledge
      the client's current sequence counter (not the packet's own numbers). */
  lemma ClientDataIsAcked(s: ConnectionState, p: Packet, d: Draw)
    requires p.kind == Data && p.from == Client && s.serverState == Established
    ensures var r := TcpReducer(s, ReceivePacket(p), d);
      && r.serverAcknowledgmentNumber == s.clientSequenceNumber
      && r == s.(serverAcknowledgmentNumber := s.clientSequenceNumber, packets := r.packets,
                 currentStep := r.currentStep)
      && |r.packets| == |s.packets| + 1
      && r.packets[..|s.packets|] == MarkDelivered(s.packets, p.id)
      && var ack := r.packets[|s.packets|];
         ack.kind == Ack && ack.from == Server && ack.to == Client
         && ack.sequenceNumber == s.serverSequenceNumber
         && ack.acknowledgmentNumber == s.clientSequenceNumber
  {
  }

  /** Delivering the server's DATA to an ESTABLISHED client: the mirror image. */
  lemma ServerDataIsAcked(s: ConnectionState, p: Packet, d: Draw)
    requires p.kind == Data && p.from == Server && s.clientState == Established
    ensures var r := TcpReducer(s, ReceivePacket(p), d);
      && r.clientAcknowledgmentNumber == s.serverSequenceNumber
      && r == s.(clientAcknowledgmentNumber := s.serverSequenceNumber, packets := r.packets,
                 currentStep := r.currentStep)
      && |r.packets| == |s.packets| + 1
      && r.packets[..|s.packets|] == MarkDelivered(s.packets, p.id)
      && var ack := r.packets[|s.packets|];
         ack.kind == Ack && ack.from == Client && ack.to == Server
         && ack.sequenceNumber == s.clientSequenceNumber
         && ack.acknowledgmentNumber == s.serverSequenceNumber
  {
  }

  /** CLOSE_CONNECTION is guarded on the client alone: it sends FIN numbered with the old
      client counter, which then advances by one, and moves the client to FIN_WAIT_1. */
  lemma CloseConnectionLaw(s: ConnectionState, d: Draw)
    ensures s.clientState != Established ==> TcpReducer(s, CloseConnection, d) == s
    ensures s.clientState == Established ==>
      var r := TcpReducer(s, CloseConnection, d);
      && r.clientState == FinWait1 && r.serverState == s.serverState
      && r.clientSequenceNumber == s.clientSequenceNumber + 1
      && r == s.(clientState := FinWait1, clientSequenceNumber := s.clientSequenceNumber + 1,
                 packets := r.packets, currentStep := r.currentStep)
      && |r.packets| == |s.packets| + 1 && r.packets[..|s.packets|] == s.packets
      && var fin := r.packets[|s.packets|];
         fin.kind == Fin && fin.from == Client && fin.to == Server
         && fin.sequenceNumber == s.clientSequenceNumber
         && fin.acknowledgmentNumber == s.clientAcknowledgmentNumber
  {
  }

  /** TIMEOUT is a no-op unless the client is in TIME_WAIT, which it then leaves for CLOSED,
      ending the connection. */
  lemma TimeoutLaw(s: ConnectionState, d: Draw)
    ensures s.clientState != TimeWait ==> TcpReducer(s, Timeout, d) == s
    ensures s.clientState == TimeWait ==>
      var r := TcpReducer(s, Timeout, d);
      r.clientState == Closed && !r.isActive && r.serverState == s.serverState
      && r.packets == s.packets
      && r == s.(clientState := Closed, isActive := false, currentStep := r.currentStep)
  {
  }

  /** RESET_CONNECTION forgets everything: empty history, client CLOSED, server LISTEN,
      counters zero, no data, inactive, default speed. */
  lemma ResetLaw(s: ConnectionState, d: Draw)
    ensures var r := TcpReducer(s, ResetConnection, d);
      && r.clientState == Closed && r.serverState == Listen
      && r.packets == [] && !r.dataExchanged && !r.isActive
      && r.clientSequenceNumber == 0 && r.serverSequenceNumber == 0
      && r.clientAcknowledgmentNumber == 0 && r.serverAcknowledgmentNumber == 0
      && r.animationSpeed == 1000
      && r == InitialConnectionState.(serverState := Listen)
  {
  }

  /** SET_ANIMATION_SPEED changes the speed and nothing else. */
  lemma SetAnimationSpeedLaw(s: ConnectionState, v: int, d: Draw)
    ensures TcpReducer(s, SetAnimationSpeed(v), d) == s.(animationSpeed := v)
  {
  }

  /** A new speed reaches only packets created afterwards: after SET_ANIMATION_SPEED(v), the
      next action keeps the durations already in flight and gives any packet it creates
      duration `v`. */
  lemma SpeedAppliesToLaterPackets(s: ConnectionState, v: int, a: Action, d1: Draw, d2: Draw)
    requires a != ResetConnection
    ensures var s1 := TcpReducer(s, SetAnimationSpeed(v), d1);
      var s2 := TcpReducer(s1, a, d2);
      && (forall i :: 0 <= i < |s.packets| ==>
            s2.packets[i].animation.duration == s.packets[i].animation.duration)
      && (|s2.packets| > |s.packets| ==> s2.packets[|s.packets|].animation.duration == v)
  {
    var s1 := TcpReducer(s, SetAnimationSpeed(v), d1);
    ReducerKeepsHistory(s1, a, d2);
  }

  /** TICK keeps every packet's identity and header, freezes delivered packets, advances the
      others by 16/duration clamped at 1, and makes them delivered exactly when the
      progress reaches 1. Nothing else in the state changes. */
  lemma TickLaw(s: ConnectionState, d: Draw)
    ensures var r := TcpReducer(s, Tick, d);
      && r == s.(packets := r.packets)
      && |r.packets| == |s.packets|
      && forall i :: 0 <= i < |s.packets| ==>
           var p, q := s.packets[i], r.packets[i];
           && SameSegment(p, q)
           && (p.delivered ==> q == p)
           && (!p.delivered ==>
                 && (q.delivered <==> q.animation.progress >= 1.0)
                 && q.animation.progress <= 1.0
                 && (p.animation.duration > 0 ==>
                       q.animation.progress
                         == Min(p.animation.progress + 16.0 / (p.animation.duration as real), 1.0)))
  {
  }

  /** `n` animation frames. */
  function Ticks(s: ConnectionState, n: nat, d: Draw): ConnectionState {
    if n == 0 then s else TcpReducer(Ticks(s, n - 1, d), Tick, d)
  }

  /** A packet that starts at progress 0 with a positive duration has progress
      min(16n/duration, 1) after `n` frames and is delivered exactly when 16n reaches the
      duration: delivery takes ceil(duration/16) frames. */
  lemma {:induction false} TicksDeliver(s: ConnectionState, i: nat, n: nat, d: Draw)
    requires i < |s.packets|
    requires !s.packets[i].delivered && s.packets[i].animation.progress == 0.0
    requires s.packets[i].animation.duration > 0
    ensures |Ticks(s, n, d).packets| == |s.packets|
    ensures var q := Ticks(s, n, d).packets[i];
      && q.animation == s.packets[i].animation.(progress := Frames(n, s.packets[i].animation.duration))
      && (q.delivered <==> 16 * n >= s.packets[i].animation.duration)
  {
    var duration := s.packets[i].animation.duration;
    if n == 0 {
      assert 16.0 * (0 as real) / (duration as real) == 0.0;
    } else {
      TicksDeliver(s, i, n - 1, d);
      var prev := Ticks(s, n - 1, d);
      assert Ticks(s, n, d).packets[i] == TickPacket(prev.packets[i]);
      FrameStep(n, duration);
    }
  }

  /** Progress after `n` frames of a packet travelling for `duration` milliseconds. */
  function Frames(n: nat, duration: int): real
    requires duration > 0
  {
    Min(16.0 * (n as real) / (duration as real), 1.0)
  }

  /** One more frame adds 16/duration until the clamp, and the clamp is reached exactly when
      16n covers the duration. */
  lemma FrameStep(n: nat, duration: int)
    requires n > 0 && duration > 0
    ensures Frames(n, duration) >= 1.0 <==> 16 * n >= duration
    ensures Frames(n - 1, duration) >= 1.0 <==> 16 * (n - 1) >= duration
    ensures Frames(n - 1, duration) < 1.0 ==>
      Frames(n, duration) == Min(Frames(n - 1, duration) + 16.0 / (duration as real), 1.0)
    ensures Frames(n - 1, duration) >= 1.0 ==> Frames(n, duration) == 1.0
  {
    var dr := duration as real;
    RatioReachesOne(16.0 * (n as real), dr);
    RatioReachesOne(16.0 * ((n - 1) as real), dr);
    SumOfRatios(16.0 * ((n - 1) as real), 16.0, dr);
    assert 16.0 * ((n - 1) as real) + 16.0 == 16.0 * (n as real);
  }

  /** x / d reaches one exactly when x reaches d. */
  lemma RatioReachesOne(x: real, d: real)
    requires d > 0.0
    ensures x / d >= 1.0 <==> x >= d
  {
    var q := x / d;
    assert q * d == x;
    if q >= 1.0 {
      assert (q - 1.0) * d >= 0.0;
    } else {
      assert (1.0 - q) * d > 0.0;
    }
  }

  lemma SumOfRatios(x: real, y: real, d: real)
    requires d > 0.0
    ensures x / d + y / d == (x + y) / d
  {
    assert (x / d) * d == x && (y / d) * d == y;
    assert (x / d + y / d) * d == x + y;
  }

  /** The actions that reseed a sequence counter: RESET_CONNECTION (both to zero), the SYN of
      START_HANDSHAKE (client) and the SYN-ACK reply to a SYN (server). */
  predicate Reseeds(s: ConnectionState, a: Action) {
    || a == ResetConnection
    || (a == StartHandshake && s.serverState == Listen)
    || (a.ReceivePacket? && MatchRule(s, a.packet) == Some(SynAtListen))
  }

  /** Sequence numbers never go backwards except where the engine reseeds them; a step
      advances the client by 0, 1 (FIN) or 59 (data) and the server by 0 or 62 (data). The
      reseeding steps set the counter of one party from the drawn ISN and leave the other
      party's alone. */
  lemma SequenceNumbersNeverDecrease(s: ConnectionState, a: Action, d: Draw)
    ensures var r := TcpReducer(s, a, d);
      !Reseeds(s, a) ==>
        && r.clientSequenceNumber - s.clientSequenceNumber in {0, 1, 59}
        && r.serverSequenceNumber - s.serverSequenceNumber in {0, 62}
    ensures var r := TcpReducer(s, a, d);
      a == StartHandshake && s.serverState == Listen ==>
        r.clientSequenceNumber == d.isn + 1 && r.serverSequenceNumber == s.serverSequenceNumber
    ensures var r := TcpReducer(s, a, d);
      a.ReceivePacket? && MatchRule(s, a.packet) == Some(SynAtListen) ==>
        r.serverSequenceNumber == d.isn + 1 && r.clientSequenceNumber == s.clientSequenceNumber
  {
  }

  /** The two encodings of the passive closer's FIN disagree. The reducer's
      CONTINUE_SERVER_CLOSE acts in every state, acknowledges the client's sequence counter
      and does not advance the server's; continueServerClose acts only in CLOSE_WAIT,
      acknowledges the server's acknowledgment number and advances the server's counter. */
  lemma FinPathsDisagree(s: ConnectionState, d: Draw)
    ensures var r := TcpReducer(s, ContinueServerClose, d);
      && r.serverState == LastAck
      && r.serverSequenceNumber == s.serverSequenceNumber
      && r == s.(serverState := LastAck, packets := r.packets)
      && |r.packets| == |s.packets| + 1 && r.packets[..|s.packets|] == s.packets
      && r.packets[|s.packets|].to == Client
      && r.packets[|s.packets|].kind == Fin && r.packets[|s.packets|].from == Server
      && r.packets[|s.packets|].sequenceNumber == s.serverSequenceNumber
      && r.packets[|s.packets|].acknowledgmentNumber == s.clientSequenceNumber
    ensures s.serverState != CloseWait ==> ContinueServerCloseGuarded(s, d) == s
    ensures s.serverState == CloseWait ==>
      var g := ContinueServerCloseGuarded(s, d);
      && g.serverState == LastAck
      && g.serverSequenceNumber == s.serverSequenceNumber + 1
      && g == s.(serverState := LastAck, serverSequenceNumber := s.serverSequenceNumber + 1,
                 packets := g.packets)
      && |g.packets| == |s.packets| + 1 && g.packets[..|s.packets|] == s.packets
      && g.packets[|s.packets|].to == Client
      && g.packets[|s.packets|].kind == Fin && g.packets[|s.packets|].from == Server
      && g.packets[|s.packets|].sequenceNumber == s.serverSequenceNumber
      && g.packets[|s.packets|].acknowledgmentNumber == s.serverAcknowledgmentNumber
    ensures TcpReducer(s, ContinueServerClose, d) != ContinueServerCloseGuarded(s, d)
  {
    var r := TcpReducer(s, ContinueServerClose, d);
    var g := ContinueServerCloseGuarded(s, d);
    if s.serverState == CloseWait {
      assert r.serverSequenceNumber != g.serverSequenceNumber;
    } else {
      assert |r.packets| != |g.packets|;
    }
  }
}
