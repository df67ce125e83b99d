/** The records the simulation engine passes around: parties, packets, the two-party
    connection state and the ten reducer actions. */
module TcpTypes {
  import opened TcpStates

  datatype Option<T> = None | Some(value: T)

  datatype Party = Client | Server

  datatype PacketType = Syn | SynAck | Ack | Fin | FinAck | Rst | Data

  /** Header flags: carried for display, never consulted by the engine. */
  datatype Flags = Flags(syn: bool, ack: bool, fin: bool, rst: bool)

  /** `progress` runs from 0 to 1; `duration` is the transit time in milliseconds,
      fixed when the packet is created. */
  datatype Animation = Animation(progress: real, duration: int)

  /** Packet identity (a uuid in the program). */
  type PacketId = nat

  /** A simulated segment. Sequence and acknowledgment numbers are optional in the
      program's type but every packet it creates carries both. */
  datatype Packet = Packet(
    id: PacketId,
    kind: PacketType,
    from: Party,
    to: Party,
    sequenceNumber: int,
    acknowledgmentNumber: int,
    flags: Flags,
    payload: Option<string>,
    timestamp: int,
    delivered: bool,
    animation: Animation)

  /** Display label of the last notable transition; no engine decision reads it. */
  datatype TcpStep =
    | Idle
    | HandshakeSyn | HandshakeSynAck | HandshakeAck
    | DataTransfer | DataTransferClient | DataTransferServer | DataAckServer | DataAckClient
    | ClosingFinClient | ClosingAckServer | ClosingFinServer | ClosingAckClient
    | TimedWait | ClosedStep | ResetStep

  datatype ConnectionState = ConnectionState(
    clientState: TcpState,
    serverState: TcpState,
    packets: seq<Packet>,
    clientSequenceNumber: int,
    serverSequenceNumber: int,
    clientAcknowledgmentNumber: int,
    serverAcknowledgmentNumber: int,
    dataExchanged: bool,
    isActive: bool,
    currentStep: TcpStep,
    animationSpeed: int)

  datatype Action =
    | ReceivePacket(packet: Packet)
    | StartHandshake
    | SendData
    | SendDataServer
    | CloseConnection
    | ResetConnection
    | Tick
    | Timeout
    | ContinueServerClose
    | SetAnimationSpeed(speed: int)

  /** `Math.floor(Math.random() * 1000000)`: an initial sequence number. */
  type Isn = x: int | 0 <= x < 1000000

  /** What one reducer call draws from its environment: at most one random initial
      sequence number, one fresh packet id and one clock reading. */
  datatype Draw = Draw(isn: Isn, id: PacketId, now: int)
}
