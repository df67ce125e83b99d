/** The connection-lifecycle engine: a total reducer from (state, action) to state.
    Illegal actions are silent no-ops; every branch is a record update that appends at
    most one packet. Randomness, packet ids and the clock come in as a `Draw`. */
module TcpSimulation {
  import opened TcpStates
  import opened TcpTypes

  const InitialConnectionState: ConnectionState := ConnectionState(
    Closed, Closed, [], 0, 0, 0, 0, false, false, Idle, 1000)

  const ClientPayload: string := "This is some sample data being sent over the TCP connection"
  const ServerPayload: string := "This is response data being sent from the server to the client"

  const SynFlags: Flags := Flags(true, false, false, false)
  const SynAckFlags: Flags := Flags(true, true, false, false)
  const AckFlags: Flags := Flags(false, true, false, false)
  const FinFlags: Flags := Flags(false, false, true, false)
  const NoFlags: Flags := Flags(false, false, false, false)

  /** A new packet: undelivered, at progress 0, travelling for the animation speed current
      at its creation. */
  function CreatePacket(kind: PacketType, from: Party, to: Party, sequenceNumber: int,
                        acknowledgmentNumber: int, flags: Flags, animationSpeed: int,
                        payload: Option<string>, draw: Draw): Packet
  {
    Packet(draw.id, kind, from, to, sequenceNumber, acknowledgmentNumber, flags, payload,
           draw.now, false, Animation(0.0, animationSpeed))
  }

  /** The history with every packet whose id is `id` marked delivered. */
  function MarkDelivered(packets: seq<Packet>, id: PacketId): seq<Packet> {
    seq(|packets|, i requires 0 <= i < |packets| =>
      if packets[i].id == id then packets[i].(delivered := true) else packets[i])
  }

  function Min(a: real, b: real): real {
    if a <= b then a else b
  }

  /** `Math.min(progress + 16 / duration, 1)`; a zero duration divides to Infinity and so
      clamps to 1. */
  function AdvancedProgress(a: Animation): real {
    if a.duration == 0 then 1.0 else Min(a.progress + 16.0 / (a.duration as real), 1.0)
  }

  /** One animation frame for one packet; delivered packets are frozen. */
  function TickPacket(p: Packet): Packet {
    if p.delivered then p
    else
      var progress := AdvancedProgress(p.animation);
      p.(animation := p.animation.(progress := progress), delivered := progress >= 1.0)
  }

  function TickPackets(packets: seq<Packet>): seq<Packet> {
    seq(|packets|, i requires 0 <= i < |packets| => TickPacket(packets[i]))
  }

  /** The rules RECEIVE_PACKET tries, in order; the first whose guard holds applies. */
  datatype ReceiveRule =
    | SynAtListen            // server LISTEN receives SYN
    | SynAckAtSynSent        // client SYN_SENT receives SYN-ACK
    | AckAtSynReceived       // server SYN_RECEIVED receives ACK
    | ClientFinAtEstablished // server ESTABLISHED receives the client's FIN
    | ServerAckAtFinWait1    // client FIN_WAIT_1 receives the server's ACK
    | ServerFinAtFinWait     // client FIN_WAIT_1 or FIN_WAIT_2 receives the server's FIN
    | ClientAckAtLastAck     // server LAST_ACK receives the client's ACK
    | AckAtClosing           // client CLOSING receives an ACK
    | ClientData             // server ESTABLISHED receives the client's DATA
    | ServerData             // client ESTABLISHED receives the server's DATA

  /** The first rule whose guard holds, or None when the packet matches no rule. */
  function MatchRule(state: ConnectionState, packet: Packet): Option<ReceiveRule> {
    if packet.kind == Syn && state.serverState == Listen then Some(SynAtListen)
    else if packet.kind == SynAck && state.clientState == SynSent then Some(SynAckAtSynSent)
    else if packet.kind == Ack && state.serverState == SynReceived then Some(AckAtSynReceived)
    else if packet.kind == Fin && packet.from == Client && state.serverState == Established then
      Some(ClientFinAtEstablished)
    else if packet.kind == Ack && packet.from == Server && state.clientState == FinWait1 then
      Some(ServerAckAtFinWait1)
    else if packet.kind == Fin && packet.from == Server
         && (state.clientState == FinWait1 || state.clientState == FinWait2) then
      Some(ServerFinAtFinWait)
    else if packet.kind == Ack && packet.from == Client && state.serverState == LastAck then
      Some(ClientAckAtLastAck)
    else if packet.kind == Ack && state.clientState == Closing then Some(AckAtClosing)
    else if packet.kind == Data && packet.from == Client && state.serverState == Established then
      Some(ClientData)
    else if packet.kind == Data && packet.from == Server && state.clientState == Established then
      Some(ServerData)
    else None
  }

  /** RECEIVE_PACKET: mark the packet delivered in the history, then apply the first rule
      that matches. The pure-ACK rules return the old history, without the delivery mark. */
  function Receive(state: ConnectionState, packet: Packet, draw: Draw): ConnectionState {
    var updated := MarkDelivered(state.packets, packet.id);
    var speed := state.animationSpeed;
    match MatchRule(state, packet)
    case None => state.(packets := updated)
    case Some(SynAtListen) =>
      state.(serverState := SynReceived,
             serverSequenceNumber := draw.isn + 1,
             serverAcknowledgmentNumber := packet.sequenceNumber + 1,
             packets := updated + [CreatePacket(SynAck, Server, Client, draw.isn,
                                                packet.sequenceNumber + 1, SynAckFlags, speed, None, draw)],
             currentStep := HandshakeSynAck)
    case Some(SynAckAtSynSent) =>
      state.(clientState := Established,
             clientAcknowledgmentNumber := packet.sequenceNumber + 1,
             packets := updated + [CreatePacket(Ack, Client, Server, state.clientSequenceNumber,
                                                packet.sequenceNumber + 1, AckFlags, speed, None, draw)],
             currentStep := HandshakeAck)
    case Some(AckAtSynReceived) =>
      state.(serverState := Established, currentStep := DataTransfer)
    case Some(ClientFinAtEstablished) =>
      state.(serverState := CloseWait,
             serverAcknowledgmentNumber := packet.sequenceNumber + 1,
             packets := updated + [CreatePacket(Ack, Server, Client, state.serverSequenceNumber,
                                                packet.sequenceNumber + 1, AckFlags, speed, None, draw)],
             currentStep := ClosingAckServer)
    case Some(ServerAckAtFinWait1) =>
      state.(clientState := FinWait2, currentStep := ClosingFinServer)
    case Some(ServerFinAtFinWait) =>
      state.(clientState := if state.clientState == FinWait1 then Closing else TimeWait,
             clientAcknowledgmentNumber := packet.sequenceNumber + 1,
             packets := updated + [CreatePacket(Ack, Client, Server, state.clientSequenceNumber,
                                                packet.sequenceNumber + 1, AckFlags, speed, None, draw)],
             currentStep := ClosingAckClient)
    case Some(ClientAckAtLastAck) =>
      state.(serverState := Closed, currentStep := TimedWait)
    case Some(AckAtClosing) =>
      state.(clientState := TimeWait, currentStep := TimedWait)
    case Some(ClientData) =>
      state.(serverAcknowledgmentNumber := state.clientSequenceNumber,
             packets := updated + [CreatePacket(Ack, Server, Client, state.serverSequenceNumber,
                                                state.clientSequenceNumber, AckFlags, speed, None, draw)],
             currentStep := DataAckServer)
    case Some(ServerData) =>
      state.(clientAcknowledgmentNumber := state.serverSequenceNumber,
             packets := updated + [CreatePacket(Ack, Client, Server, state.clientSequenceNumber,
                                                state.serverSequenceNumber, AckFlags, speed, None, draw)],
             currentStep := DataAckClient)
  }

  /** START_HANDSHAKE: arm the listener, or, when it is armed, send the client's SYN. */
  function StartHandshakeStep(state: ConnectionState, draw: Draw): ConnectionState {
    if state.serverState != Listen then state.(serverState := Listen)
    else
      state.(clientState := SynSent,
             clientSequenceNumber := draw.isn + 1,
             packets := state.packets + [CreatePacket(Syn, Client, Server, draw.isn, 0, SynFlags,
                                                      state.animationSpeed, None, draw)],
             isActive := true,
             currentStep := HandshakeSyn)
  }

  /** SEND_DATA: the client sends its sample payload, which occupies that many sequence slots. */
  function SendDataStep(state: ConnectionState, draw: Draw): ConnectionState {
    if state.clientState != Established || state.serverState != Established then state
    else
      state.(clientSequenceNumber := state.clientSequenceNumber + |ClientPayload|,
             packets := state.packets + [CreatePacket(Data, Client, Server, state.clientSequenceNumber,
                                                      state.clientAcknowledgmentNumber, NoFlags,
                                                      state.animationSpeed, Some(ClientPayload), draw)],
             dataExchanged := true,
             currentStep := DataTransferClient)
  }

  /** SEND_DATA_SERVER: the same from the server side. */
  function SendDataServerStep(state: ConnectionState, draw: Draw): ConnectionState {
    if state.clientState != Established || state.serverState != Established then state
    else
      state.(serverSequenceNumber := state.serverSequenceNumber + |ServerPayload|,
             packets := state.packets + [CreatePacket(Data, Server, Client, state.serverSequenceNumber,
                                                      state.serverAcknowledgmentNumber, NoFlags,
                                                      state.animationSpeed, Some(ServerPayload), draw)],
             dataExchanged := true,
             currentStep := DataTransferServer)
  }

  /** CLOSE_CONNECTION: the client sends FIN (one sequence slot) and enters FIN_WAIT_1. */
  function CloseConnectionStep(state: ConnectionState, draw: Draw): ConnectionState {
    if state.clientState != Established then state
    else
      state.(clientState := FinWait1,
             clientSequenceNumber := state.clientSequenceNumber + 1,
             packets := state.packets + [CreatePacket(Fin, Client, Server, state.clientSequenceNumber,
                                                      state.clientAcknowledgmentNumber, FinFlags,
                                                      state.animationSpeed, None, draw)],
             currentStep := ClosingFinClient)
  }

  /** TIMEOUT: TIME_WAIT expires. */
  function TimeoutStep(state: ConnectionState): ConnectionState {
    if state.clientState == TimeWait then
      state.(clientState := Closed, isActive := false, currentStep := ClosedStep)
    else state
  }

  /** RESET_CONNECTION: the initial state, but with the server already listening. */
  const ResetState: ConnectionState := InitialConnectionState.(serverState := Listen)

  /** CONTINUE_SERVER_CLOSE as the reducer has it: unguarded, acknowledges the client's
      sequence number and does not advance the server's. */
  function ContinueServerCloseStep(state: ConnectionState, draw: Draw): ConnectionState {
    state.(serverState := LastAck,
           packets := state.packets + [CreatePacket(Fin, Server, Client, state.serverSequenceNumber,
                                                    state.clientSequenceNumber, FinFlags,
                                                    state.animationSpeed, None, draw)])
  }

  function TcpReducer(state: ConnectionState, action: Action, draw: Draw): ConnectionState {
    match action
    case StartHandshake => StartHandshakeStep(state, draw)
    case ReceivePacket(packet) => Receive(state, packet, draw)
    case SendData => SendDataStep(state, draw)
    case CloseConnection => CloseConnectionStep(state, draw)
    case Timeout => TimeoutStep(state)
    case Tick => state.(packets := TickPackets(state.packets))
    case ResetConnection => ResetState
    case ContinueServerClose => ContinueServerCloseStep(state, draw)
    case SetAnimationSpeed(speed) => state.(animationSpeed := speed)
    case SendDataServer => SendDataServerStep(state, draw)
  }

  /** continueServerClose, the exported helper: guarded on CLOSE_WAIT, acknowledges the
      server's own acknowledgment number and lets the FIN consume a sequence slot. */
  function ContinueServerCloseGuarded(state: ConnectionState, draw: Draw): ConnectionState {
    if state.serverState != CloseWait then state
    else
      state.(serverState := LastAck,
             serverSequenceNumber := state.serverSequenceNumber + 1,
             packets := state.packets + [CreatePacket(Fin, Server, Client, state.serverSequenceNumber,
                                                      state.serverAcknowledgmentNumber, FinFlags,
                                                      state.animationSpeed, None, draw)])
  }
}
