/** The reducer against the transition table: every change of a party's state that a
    state-pinning guard allows is a row of the table, and the two unguarded updates fit a
    row only from the one state the table expects. */
module TcpTableConsistency {
  import opened TcpStates
  import opened TcpTypes
  import opened TcpSimulation

  /** A party either keeps its state or moves along a row of the table. */
  predicate TableMove(a: TcpState, b: TcpState) {
    a == b || HasRow(a, b)
  }

  /** Every client move of the reducer is a table row, except RESET_CONNECTION and a
      START_HANDSHAKE that sends a SYN while the client is not CLOSED. */
  lemma ClientMovesFollowTable(s: ConnectionState, a: Action, d: Draw)
    requires a != ResetConnection
    requires a == StartHandshake && s.serverState == Listen ==> s.clientState == Closed
    ensures TableMove(s.clientState, TcpReducer(s, a, d).clientState)
  {
    match a
    case ReceivePacket(p) => ClientReceiveFollowsTable(s, p, d);
    case StartHandshake => Row(1);
    case CloseConnection => Row(9);
    case Timeout => Row(18);
    case _ =>
  }

  lemma ClientReceiveFollowsTable(s: ConnectionState, p: Packet, d: Draw)
    ensures TableMove(s.clientState, TcpReducer(s, ReceivePacket(p), d).clientState)
  {
    var r := TcpReducer(s, ReceivePacket(p), d);
    var rule := MatchRule(s, p);
    ReceiveClientMove(s, p, d);
    if rule == Some(SynAckAtSynSent) {
      Row(4);
    } else if rule == Some(ServerAckAtFinWait1) {
      Row(11);
    } else if rule == Some(ServerFinAtFinWait) && s.clientState == FinWait1 {
      Row(12);
    } else if rule == Some(ServerFinAtFinWait) {
      Row(14);
    } else if rule == Some(AckAtClosing) {
      Row(17);
    }
  }

  /** The receive rules that move the client. */
  const ClientRules: set<Option<ReceiveRule>> :=
    {Some(SynAckAtSynSent), Some(ServerAckAtFinWait1), Some(ServerFinAtFinWait), Some(AckAtClosing)}

  /** Where RECEIVE_PACKET takes the client, rule by rule. */
  lemma ReceiveClientMove(s: ConnectionState, p: Packet, d: Draw)
    ensures var r := TcpReducer(s, ReceivePacket(p), d);
      var rule := MatchRule(s, p);
      && (rule == Some(SynAckAtSynSent) ==> s.clientState == SynSent && r.clientState == Established)
      && (rule == Some(ServerAckAtFinWait1) ==> s.clientState == FinWait1 && r.clientState == FinWait2)
      && (rule == Some(ServerFinAtFinWait) && s.clientState == FinWait1 ==> r.clientState == Closing)
      && (rule == Some(ServerFinAtFinWait) && s.clientState != FinWait1 ==>
            s.clientState == FinWait2 && r.clientState == TimeWait)
      && (rule == Some(AckAtClosing) ==> s.clientState == Closing && r.clientState == TimeWait)
      && (rule !in ClientRules ==> r.clientState == s.clientState)
  {
  }

  /** Every server move of the reducer is a table row, except RESET_CONNECTION, a
      START_HANDSHAKE that re-arms a server which is neither CLOSED nor LISTEN, and a
      CONTINUE_SERVER_CLOSE outside CLOSE_WAIT and LAST_ACK. */
  lemma ServerMovesFollowTable(s: ConnectionState, a: Action, d: Draw)
    requires a != ResetConnection
    requires a == StartHandshake ==> s.serverState in {Closed, Listen}
    requires a == ContinueServerClose ==> s.serverState in {CloseWait, LastAck}
    ensures TableMove(s.serverState, TcpReducer(s, a, d).serverState)
  {
    match a
    case ReceivePacket(p) => ServerReceiveFollowsTable(s, p, d);
    case StartHandshake => Row(0);
    case ContinueServerClose => Row(15);
    case _ =>
  }

  lemma ServerReceiveFollowsTable(s: ConnectionState, p: Packet, d: Draw)
    ensures TableMove(s.serverState, TcpReducer(s, ReceivePacket(p), d).serverState)
  {
    var rule := MatchRule(s, p);
    ReceiveServerMove(s, p, d);
    if rule == Some(SynAtListen) {
      Row(2);
    } else if rule == Some(AckAtSynReceived) {
      Row(6);
    } else if rule == Some(ClientFinAtEstablished) {
      Row(10);
    } else if rule == Some(ClientAckAtLastAck) {
      Row(16);
    }
  }

  /** The receive rules that move the server. */
  const ServerRules: set<Option<ReceiveRule>> :=
    {Some(SynAtListen), Some(AckAtSynReceived), Some(ClientFinAtEstablished), Some(ClientAckAtLastAck)}

  /** Where RECEIVE_PACKET takes the server, rule by rule. */
  lemma ReceiveServerMove(s: ConnectionState, p: Packet, d: Draw)
    ensures var r := TcpReducer(s, ReceivePacket(p), d);
      var rule := MatchRule(s, p);
      && (rule == Some(SynAtListen) ==> s.serverState == Listen && r.serverState == SynReceived)
      && (rule == Some(AckAtSynReceived) ==> s.serverState == SynReceived && r.serverState == Established)
      && (rule == Some(ClientFinAtEstablished) ==> s.serverState == Established && r.serverState == CloseWait)
      && (rule == Some(ClientAckAtLastAck) ==> s.serverState == LastAck && r.serverState == Closed)
      && (rule !in ServerRules ==> r.serverState == s.serverState)
  {
  }

  /** The rows into SYN_SENT: only the one from CLOSED. */
  lemma OnlyClosedEntersSynSent(x: TcpState)
    ensures HasRow(x, SynSent) <==> x == Closed
  {
    Row(1);
    if HasRow(x, SynSent) {
      var k :| 0 <= k < |Transitions| && Transitions[k].from == x && Transitions[k].to == SynSent;
      RowTo(k);
    }
  }

  /** The rows into LISTEN: only the one from CLOSED. */
  lemma OnlyClosedEntersListen(x: TcpState)
    ensures HasRow(x, Listen) <==> x == Closed
  {
    Row(0);
    if HasRow(x, Listen) {
      var k :| 0 <= k < |Transitions| && Transitions[k].from == x && Transitions[k].to == Listen;
      RowTo(k);
    }
  }

  /** The rows into LAST_ACK: only the one from CLOSE_WAIT. */
  lemma OnlyCloseWaitEntersLastAck(x: TcpState)
    ensures HasRow(x, LastAck) <==> x == CloseWait
  {
    Row(15);
    if HasRow(x, LastAck) {
      var k :| 0 <= k < |Transitions| && Transitions[k].from == x && Transitions[k].to == LastAck;
      RowTo(k);
    }
  }

  /** Where each row leads, by index. */
  lemma RowTo(k: nat)
    requires k < |Transitions|
    ensures Transitions[k].to == SynSent ==> k == 1
    ensures Transitions[k].to == Listen ==> k == 0
    ensures Transitions[k].to == LastAck ==> k == 15
  {
    assert k in {0, 1, 2, 3, 4, 5, 6, 7, 8, 9, 10, 11, 12, 13, 14, 15, 16, 17, 18};
  }

  /** So the client's SYN update of START_HANDSHAKE fits the table exactly when the client
      was CLOSED (or already in SYN_SENT, where it is no move). */
  lemma StartHandshakeClientFitsOnlyFromClosed(s: ConnectionState, d: Draw)
    requires s.serverState == Listen
    ensures TableMove(s.clientState, TcpReducer(s, StartHandshake, d).clientState)
      <==> s.clientState in {Closed, SynSent}
  {
    OnlyClosedEntersSynSent(s.clientState);
  }

  /** And the reducer's CONTINUE_SERVER_CLOSE fits the table exactly from CLOSE_WAIT (or
      LAST_ACK, where it is no move). */
  lemma ContinueServerCloseFitsOnlyFromCloseWait(s: ConnectionState, d: Draw)
    ensures TableMove(s.serverState, TcpReducer(s, ContinueServerClose, d).serverState)
      <==> s.serverState in {CloseWait, LastAck}
  {
    OnlyCloseWaitEntersLastAck(s.serverState);
  }

  /** Re-arming the listener fits the table exactly from CLOSED (or LISTEN itself). */
  lemma StartHandshakeServerFitsOnlyFromClosed(s: ConnectionState, d: Draw)
    ensures TableMove(s.serverState, TcpReducer(s, StartHandshake, d).serverState)
      <==> s.serverState in {Closed, Listen}
  {
    OnlyClosedEntersListen(s.serverState);
  }

  /** Rows the engine never takes: the client never jumps from FIN_WAIT_1 straight to
      TIME_WAIT (the FIN-ACK row), and the server never enters FIN_WAIT_1. */
  lemma RowsTheEngineNeverTakes(s: ConnectionState, a: Action, d: Draw)
    ensures s.clientState == FinWait1 ==> TcpReducer(s, a, d).clientState != TimeWait
    ensures s.serverState != FinWait1 ==> TcpReducer(s, a, d).serverState != FinWait1
  {
  }
}
