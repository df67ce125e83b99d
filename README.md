# tcp-visualizer: the connection-lifecycle engine in Dafny

This project models the core of tcp-visualizer, a teaching tool that animates a TCP
connection between a client and a server. Four pieces are modelled:

- **The canonical state machine** (`lib/tcpStates.ts`), module `TcpStates`. It holds the
  eleven TCP states, the nineteen-row transition table and the two filter queries
  `getNextStates` and `getIncomingTransitions`.
- **The types** (`lib/types.ts`), module `TcpTypes`. These are parties, packet kinds,
  flags, packets, the connection state and the ten reducer actions.
- **The transition engine** (`lib/tcpSimulation.ts`), module `TcpSimulation`. This covers
  `initialConnectionState`, `createPacket`, the pure reducer `tcpReducer` with all ten
  action cases, and the guarded helper `continueServerClose`. The engine is a total
  function over datatypes. The first rule of `RECEIVE_PACKET` that matches is computed
  once (`MatchRule`), and `Receive` applies it.
- **The simulation hook** (`hooks/useTCPSimulation.ts`), module `UseTcpSimulation`. It is a
  class `Simulation` with these fields:
  - the reducer's state;
  - the `processedPackets` set;
  - the list of pending timers, each one a delayed action;
  - a counter that hands out packet ids.

  The two effects, the action wrappers and the animation frame are methods. The `can*`
  flags are predicates.

The laws are proved in three further modules:

- `TcpLaws`: what each action does and keeps.
- `TcpTraces`: whole scenarios, such as the handshake, the data round trips and the close
  paths.
- `TcpTableConsistency`: the reducer checked against the transition table.

Randomness and the clock become parameters:

- Each reducer call receives a `Draw`. It holds the ISN (an integer in [0, 1000000), as
  `Math.floor(Math.random() * 1000000)` gives), the packet id (the uuid) and the timestamp
  (`Date.now()`).
- In the hook the id comes from a counter, and the ISN and the clock come in as an
  `Entropy` argument.
- Animation progress is an exact `real` and durations are integer milliseconds.
- A zero duration makes `16 / duration` infinite in the program, so progress clamps to 1.
  The model writes that out.

Some behaviours of the code are worth knowing, and the model keeps them as written:

- The reducer's `CONTINUE_SERVER_CLOSE` has no guard. It acknowledges the client's sequence
  counter and leaves the server's counter alone. Only the separate helper
  `continueServerClose` is guarded on CLOSE_WAIT, acknowledges `serverAcknowledgmentNumber`
  and advances the server's counter. Both are modelled, and `TcpLaws.FinPathsDisagree`
  states the difference.
- The four pure-ACK receive rules return the old history, so they do not mark the received
  packet delivered.
- Sequence numbers can go down. A new `START_HANDSHAKE` or SYN reseeds them from a random
  ISN. `TcpLaws.SequenceNumbersNeverDecrease` states which steps reseed.
- Not every engine move is a table row. For example, `START_HANDSHAKE` re-arms the listener
  from any state, and the table's FIN_WAIT_1 to TIME_WAIT row is never taken.
- `TICK` advances by a fixed 16 ms frame, not by an elapsed time.
- `resetConnection` clears the processed set but cancels no pending timer. A stale
  `CONTINUE_SERVER_CLOSE` after a reset drives the new, listening server to LAST_ACK.
- The two effects share one `processedPackets` set. The new-packet effect registers each
  packet as soon as it appears, so the delivery effect never selects it afterwards
  (`UseTcpSimulation.AnimatedPacketsSkipDeliveryEffect`,
  `UseTcpSimulation.NewPacketEffectRegistersAll`). Only the delivery effect schedules
  `CONTINUE_SERVER_CLOSE` and `TIMEOUT` (`UseTcpSimulation.FollowUpsSchedule`,
  `UseTcpSimulation.DeliveryTimersOnlyReceive`). With every id registered it schedules
  nothing (`UseTcpSimulation.DeliveryEffectIdleWhenAllRegistered`). As written, then, the
  follow-up timers of the close fire only for packets that were never registered.

## Model

| member | source | states |
|---|---|---|
| TcpStates.StatesAreTheElevenStates | lib/tcpStates.ts:3-37 | `states` has eleven pairwise distinct entries, and every TCPState value is among them |
| TcpStates.StateIndex | lib/tcpStates.ts:25-37 | every state has a position in `states`, and the entry there is that state |
| TcpStates.TableShape | lib/tcpStates.ts:40-171 | the table has 19 pairwise distinct rows; every endpoint is in `states`; no row is a self-loop |
| TcpStates.RowsAreDistinct | lib/tcpStates.ts:40-171 | no two rows of the table join the same pair of states |
| TcpStates.Select | lib/tcpStates.ts:174-181 | the filter both queries run, a scan of the first n rows; SelectIsSubsequence and SelectIsExact specify it |
| TcpStates.GetNextStates | lib/tcpStates.ts:174-176 | getNextStates; GetNextStatesIsFilter and HasRowIsNextState specify it |
| TcpStates.GetIncomingTransitions | lib/tcpStates.ts:179-181 | getIncomingTransitions; GetIncomingTransitionsIsFilter and HasRowIsIncoming specify it |
| TcpStates.SelectIsSubsequence | lib/tcpStates.ts:174-181 | the filter both queries run, over the first n rows, keeps table order: it is a subsequence of those rows |
| TcpStates.SelectIsExact | lib/tcpStates.ts:174-181 | that filter lists only rows whose chosen endpoint is the state, and misses none of the scanned rows that have it |
| TcpStates.GetNextStatesIsFilter | lib/tcpStates.ts:174-176 | getNextStates(s) is exactly the rows with from == s, as a subsequence of the table in table order |
| TcpStates.GetIncomingTransitionsIsFilter | lib/tcpStates.ts:179-181 | getIncomingTransitions(s) is exactly the rows with to == s, in table order |
| TcpStates.HasRowIsNextState | lib/tcpStates.ts:174-176 | a row a to b exists if and only if getNextStates(a) lists a row to b |
| TcpStates.HasRowIsIncoming | lib/tcpStates.ts:179-181 | a row a to b exists if and only if getIncomingTransitions(b) lists a row from a |
| TcpStates.TimeWaitHasOneOutgoingRow | lib/tcpStates.ts:165-170 | TIME_WAIT has exactly one outgoing row, to CLOSED |
| TcpStates.FinWait1RowsSoFar | lib/tcpStates.ts:116-136 | among the first fourteen rows, the FIN_WAIT_1 rows are rows 11, 12 and 13 |
| TcpStates.FinWait1HasThreeOutgoingRows | lib/tcpStates.ts:116-136 | FIN_WAIT_1 has exactly three outgoing rows, to FIN_WAIT_2, CLOSING and TIME_WAIT, in that order |
| TcpSimulation.CreatePacket | lib/tcpSimulation.ts:22-46 | createPacket; ReducerKeepsHistory (a fresh, undelivered packet at progress 0 with the drawn id) and SpeedAppliesToLaterPackets (its duration is the speed at creation) specify it |
| TcpSimulation.MarkDelivered | lib/tcpSimulation.ts:88-90 | the delivery mark of RECEIVE_PACKET; MarkDeliveredExtends and ReceiveUnmatched specify it |
| TcpSimulation.AdvancedProgress | lib/tcpSimulation.ts:337-340 | one frame of progress; TickLaw and FrameStep specify it |
| TcpSimulation.TickPacket | lib/tcpSimulation.ts:332-350 | one frame for one packet; TickLaw and TicksDeliver specify it |
| TcpSimulation.TickPackets | lib/tcpSimulation.ts:331-356 | TICK on the history; TickExtends and TickLaw specify it |
| TcpSimulation.MatchRule | lib/tcpSimulation.ts:93-258 | the first receive rule whose guard holds; ReceiveMatchesIffEffect, ReceiveClientMove and ReceiveServerMove specify it |
| TcpSimulation.Receive | lib/tcpSimulation.ts:86-264 | RECEIVE_PACKET; ReceiveKeepsHistory, ReceiveUnmatched, PureAckRulesKeepHistory, ClientDataIsAcked, ServerDataIsAcked and the traces specify it |
| TcpSimulation.StartHandshakeStep | lib/tcpSimulation.ts:54-84 | START_HANDSHAKE; StartHandshakeArmsListener and StartHandshakeSendsSyn specify it |
| TcpSimulation.SendDataStep | lib/tcpSimulation.ts:266-292 | SEND_DATA; SendDataLaw specifies it |
| TcpSimulation.SendDataServerStep | lib/tcpSimulation.ts:388-414 | SEND_DATA_SERVER; SendDataServerLaw specifies it |
| TcpSimulation.CloseConnectionStep | lib/tcpSimulation.ts:294-317 | CLOSE_CONNECTION; CloseConnectionLaw specifies it |
| TcpSimulation.TimeoutStep | lib/tcpSimulation.ts:319-329 | TIMEOUT; TimeoutLaw specifies it |
| TcpSimulation.ContinueServerCloseStep | lib/tcpSimulation.ts:365-379 | the reducer's CONTINUE_SERVER_CLOSE; FinPathsDisagree specifies it |
| TcpSimulation.TcpReducer | lib/tcpSimulation.ts:49-419 | tcpReducer; ReducerKeepsHistory, SequenceNumbersNeverDecrease, the per-action laws and the table-consistency lemmas specify it |
| TcpSimulation.ContinueServerCloseGuarded | lib/tcpSimulation.ts:422-443 | continueServerClose; FinPathsDisagree specifies it |
| TcpLaws.MarkDeliveredExtends | lib/tcpSimulation.ts:88-90 | marking delivered sets the flag of exactly the packets with that id and leaves every other field and packet unchanged; hence it extends the history without appending |
| TcpLaws.TickExtends | lib/tcpSimulation.ts:331-356 | a tick keeps every packet in place, changing only its progress and delivered flag and never un-delivering it |
| TcpLaws.ReceiveKeepsHistory | lib/tcpSimulation.ts:86-263 | RECEIVE_PACKET never removes, reorders or un-delivers a packet, and appends at most one fresh packet with the drawn id and the current speed |
| TcpLaws.ReducerKeepsHistory | lib/tcpSimulation.ts:49-419 | every action except RESET_CONNECTION extends the history by at most one fresh, undelivered packet with the drawn id and the current speed; RESET_CONNECTION empties it |
| TcpLaws.StartHandshakeArmsListener | lib/tcpSimulation.ts:54-62 | when the server is not listening, START_HANDSHAKE changes only serverState, to LISTEN, and appends nothing |
| TcpLaws.StartHandshakeSendsSyn | lib/tcpSimulation.ts:64-83 | a listening server makes START_HANDSHAKE append one SYN numbered with the ISN, ack 0; the client goes to SYN_SENT with clientSeq = ISN + 1 and isActive; every other field except the step label is unchanged |
| TcpLaws.ReceiveUnmatched | lib/tcpSimulation.ts:86-263 | when no rule matches, RECEIVE_PACKET changes only the delivered flag of the packets with the received id |
| TcpLaws.ReceiveMatchesIffEffect | lib/tcpSimulation.ts:86-263 | a receive rule matches if and only if RECEIVE_PACKET does more than mark the packet delivered |
| TcpLaws.PureAckRulesKeepHistory | lib/tcpSimulation.ts:137-216 | the four pure-ACK rules return the packet history untouched, with no delivery mark, and fire only on ACKs |
| TcpLaws.SendDataLaw | lib/tcpSimulation.ts:266-292 | SEND_DATA is the identity unless both parties are ESTABLISHED; otherwise it appends one client DATA packet with the client's seq and ack and the payload, advances clientSeq by 59 and sets dataExchanged; every other field except the step label is unchanged |
| TcpLaws.SendDataServerLaw | lib/tcpSimulation.ts:388-414 | SEND_DATA_SERVER is the same from the server, with the 62-character payload, advancing serverSeq by 62; every other field except the step label is unchanged |
| TcpLaws.ClientDataIsAcked | lib/tcpSimulation.ts:219-238 | client DATA delivered to an ESTABLISHED server yields one server ACK whose ack is the client's current seq, which becomes serverAck; the earlier entries are the marked history, and every other field except the step label is unchanged |
| TcpLaws.ServerDataIsAcked | lib/tcpSimulation.ts:239-257 | server DATA delivered to an ESTABLISHED client yields one client ACK whose ack is the server's current seq, which becomes clientAck; the earlier entries are the marked history, and every other field except the step label is unchanged |
| TcpLaws.CloseConnectionLaw | lib/tcpSimulation.ts:294-317 | CLOSE_CONNECTION is guarded on the client alone; it appends a FIN with the old clientSeq and clientAck, advances clientSeq by 1 and moves the client to FIN_WAIT_1; every other field except the step label is unchanged |
| TcpLaws.TimeoutLaw | lib/tcpSimulation.ts:319-329 | TIMEOUT is the identity unless the client is in TIME_WAIT; then the client is CLOSED and the connection inactive, and every other field except the step label is unchanged |
| TcpLaws.ResetLaw | lib/tcpSimulation.ts:358-363 | RESET_CONNECTION yields the initial state with the server in LISTEN, from any state |
| TcpLaws.SetAnimationSpeedLaw | lib/tcpSimulation.ts:381-386 | SET_ANIMATION_SPEED changes animationSpeed and nothing else |
| TcpLaws.SpeedAppliesToLaterPackets | lib/tcpSimulation.ts:22-46 | after a speed change, packets already in the history keep their duration and a packet created next travels for the new speed |
| TcpLaws.TickLaw | lib/tcpSimulation.ts:331-356 | TICK changes only the history: packets keep identity and header, delivered packets are frozen, the others advance by 16/duration clamped at 1 and are delivered exactly when progress reaches 1 |
| TcpLaws.TicksDeliver | lib/tcpSimulation.ts:331-356 | a packet that starts at progress 0 with a positive duration is at min(16n/duration, 1) after n ticks, and is delivered exactly when 16n reaches the duration |
| TcpLaws.FrameStep | lib/tcpSimulation.ts:337-340 | one more frame adds 16/duration until the clamp at 1, and the clamp is reached exactly when 16n covers the duration |
| TcpLaws.SequenceNumbersNeverDecrease | lib/tcpSimulation.ts:49-419 | outside the reseeding steps, a step advances the client's counter by 0, 1 or 59 and the server's by 0 or 62; the SYN and SYN-ACK steps set one party's counter to ISN + 1 and leave the other's |
| TcpLaws.FinPathsDisagree | lib/tcpSimulation.ts:365-443 | each path keeps the earlier history unchanged and appends one FIN from server to client numbered with serverSeq, moving the server to LAST_ACK; the reducer's CONTINUE_SERVER_CLOSE acts in every state, acks clientSeq and keeps serverSeq; continueServerClose acts only in CLOSE_WAIT, acks serverAck and advances serverSeq; neither changes any other field |
| TcpTraces.HandshakeTrace | lib/tcpSimulation.ts:54-144 | from a listening server, START_HANDSHAKE then delivering SYN, SYN-ACK, ACK establishes both sides with three new segments, active, each side's seq one past its ISN and each side acking the other's ISN + 1 |
| TcpTraces.HandshakeFromInitialState | lib/tcpSimulation.ts:7-144 | from the initial state two START_HANDSHAKEs and three deliveries establish both sides, with exactly the SYN, SYN-ACK and ACK in the history |
| TcpTraces.ClientDataRoundTrip | lib/tcpSimulation.ts:219-292 | SEND_DATA then its delivery records DATA and ACK, and the ACK and serverAck carry the new clientSeq (old + 59) |
| TcpTraces.ServerDataRoundTrip | lib/tcpSimulation.ts:388-414 | SEND_DATA_SERVER then its delivery records DATA and ACK, and the ACK and clientAck carry the new serverSeq (old + 62) |
| TcpTraces.CloseFirstHalf | lib/tcpSimulation.ts:147-174 | CLOSE_CONNECTION, the FIN delivered and its ACK delivered take ESTABLISHED/ESTABLISHED through FIN_WAIT_1/CLOSE_WAIT to FIN_WAIT_2/CLOSE_WAIT, recording FIN and ACK |
| TcpTraces.CloseServerFin | lib/tcpSimulation.ts:176-198 | CONTINUE_SERVER_CLOSE from FIN_WAIT_2/CLOSE_WAIT, then delivering the server's FIN, reaches TIME_WAIT/LAST_ACK, recording FIN and ACK |
| TcpTraces.CloseLastAck | lib/tcpSimulation.ts:200-207 | delivering the client's last ACK to LAST_ACK and then TIMEOUT closes both sides and leaves the history and counters untouched |
| TcpTraces.CloseSecondHalf | lib/tcpSimulation.ts:176-216 | the server's half of the close ends CLOSED/CLOSED and inactive, with FIN and ACK recorded; the client acks the server's counter + 1 |
| TcpTraces.SimultaneousCloseTrace | lib/tcpSimulation.ts:177-216 | a server FIN reaching a client in FIN_WAIT_1 leads to CLOSING and acks the FIN's seq + 1; a later server ACK then leads to TIME_WAIT, provided the server is not in SYN_RECEIVED, whose rule comes first |
| TcpTraces.StaleTimersAfterReset | lib/tcpSimulation.ts:358-379 | a CONTINUE_SERVER_CLOSE fired after a reset drives the server to LAST_ACK and emits a FIN into the empty history; a stale TIMEOUT is harmless |
| TcpTableConsistency.ClientMovesFollowTable | lib/tcpSimulation.ts:49-419 | every client move of the reducer is a table row, except RESET and a SYN-sending START_HANDSHAKE from a client that is not CLOSED |
| TcpTableConsistency.ClientReceiveFollowsTable | lib/tcpSimulation.ts:86-263 | every client move made by RECEIVE_PACKET is a table row |
| TcpTableConsistency.ReceiveClientMove | lib/tcpSimulation.ts:116-216 | for each receive rule, the client state it requires and the one it produces; other rules leave the client alone |
| TcpTableConsistency.ServerMovesFollowTable | lib/tcpSimulation.ts:49-419 | every server move of the reducer is a table row, except RESET, a START_HANDSHAKE outside CLOSED/LISTEN, and a CONTINUE_SERVER_CLOSE outside CLOSE_WAIT/LAST_ACK |
| TcpTableConsistency.ServerReceiveFollowsTable | lib/tcpSimulation.ts:86-263 | every server move made by RECEIVE_PACKET is a table row |
| TcpTableConsistency.ReceiveServerMove | lib/tcpSimulation.ts:93-207 | for each receive rule, the server state it requires and the one it produces; other rules leave the server alone |
| TcpTableConsistency.OnlyClosedEntersSynSent | lib/tcpStates.ts:40-171 | the table enters SYN_SENT only from CLOSED |
| TcpTableConsistency.OnlyClosedEntersListen | lib/tcpStates.ts:40-171 | the table enters LISTEN only from CLOSED |
| TcpTableConsistency.OnlyCloseWaitEntersLastAck | lib/tcpStates.ts:40-171 | the table enters LAST_ACK only from CLOSE_WAIT |
| TcpTableConsistency.StartHandshakeClientFitsOnlyFromClosed | lib/tcpSimulation.ts:76-83 | the client's SYN update fits the table if and only if the client was CLOSED, or already in SYN_SENT, where it is no move |
| TcpTableConsistency.StartHandshakeServerFitsOnlyFromClosed | lib/tcpSimulation.ts:54-62 | re-arming the listener fits the table if and only if the server was CLOSED or already LISTEN |
| TcpTableConsistency.ContinueServerCloseFitsOnlyFromCloseWait | lib/tcpSimulation.ts:365-379 | the reducer's CONTINUE_SERVER_CLOSE fits the table if and only if the server was in CLOSE_WAIT, or already in LAST_ACK |
| TcpTableConsistency.RowsTheEngineNeverTakes | lib/tcpSimulation.ts:49-419 | no action takes the client from FIN_WAIT_1 to TIME_WAIT, and none brings the server into FIN_WAIT_1 |
| UseTcpSimulation.Pick | hooks/useTCPSimulation.ts:17-21 | the effects' filter over the history; PickIsFilter and its three parts specify it |
| UseTcpSimulation.FollowUp | hooks/useTCPSimulation.ts:27-39 | the timers the delivery effect sets for one packet; FollowUpsSchedule specifies it |
| UseTcpSimulation.FollowUps | hooks/useTCPSimulation.ts:23-40 | the timers it sets for a batch; FollowUpsSchedule specifies it |
| UseTcpSimulation.DeliveryTimers | lib/tcpSimulation.ts:488-496 | the delivery timer processNewPacket sets for each packet; DeliveryTimersOnlyReceive specifies it |
| UseTcpSimulation.CanStartHandshake | hooks/useTCPSimulation.ts:99 | canStartHandshake; CanStartHandshakeAndSyn specifies it |
| UseTcpSimulation.CanSendData | hooks/useTCPSimulation.ts:100 | canSendData; CanSendDataIffReducerActs specifies it |
| UseTcpSimulation.CanCloseConnection | hooks/useTCPSimulation.ts:101 | canCloseConnection; CanSendDataIffReducerActs and CloseFlagIsStricterThanReducer specify it |
| UseTcpSimulation.PickIsFilter | hooks/useTCPSimulation.ts:17-21 | the effects' selection is an order-preserving subsequence of the history, holding exactly the packets that meet the criterion and are not in the set |
| UseTcpSimulation.PickIsSubsequence | hooks/useTCPSimulation.ts:17-21 | the selection keeps history order |
| UseTcpSimulation.PickQualifies | hooks/useTCPSimulation.ts:45-49 | every selected packet meets the criterion and has an unregistered id |
| UseTcpSimulation.PickComplete | hooks/useTCPSimulation.ts:45-49 | no qualifying, unregistered packet is left out |
| UseTcpSimulation.PickKeepsUniqueIds | hooks/useTCPSimulation.ts:17-21 | a selection from a history with unique ids has unique ids |
| UseTcpSimulation.PickNone | hooks/useTCPSimulation.ts:17-21 | when no packet qualifies, nothing is selected |
| UseTcpSimulation.PickThenRegister | hooks/useTCPSimulation.ts:16-25 | after registering the selected ids, the same selection on the same history is empty: a packet is picked at most once until the set is cleared |
| UseTcpSimulation.AnimatedPacketsSkipDeliveryEffect | hooks/useTCPSimulation.ts:44-55 | a packet registered by the new-packet effect is never selected by the delivery effect while its id stays registered |
| UseTcpSimulation.EffectsPickDisjointPackets | hooks/useTCPSimulation.ts:16-55 | on one snapshot the two effects select disjoint packets |
| UseTcpSimulation.NewPacketEffectRegistersAll | hooks/useTCPSimulation.ts:44-55 | after the new-packet effect, every id of a history whose non-fresh packets were already registered is registered |
| UseTcpSimulation.DeliveryEffectIdleWhenAllRegistered | hooks/useTCPSimulation.ts:16-41 | with every id of the snapshot registered, the delivery effect selects nothing, schedules no timer and leaves the state as it is |
| UseTcpSimulation.DeliveryTimersOnlyReceive | lib/tcpSimulation.ts:488-496 | the new-packet effect sets one timer per packet, after its duration, delivering that packet marked delivered, and no other kind of timer |
| UseTcpSimulation.DispatchKeepsIdsFresh | lib/tcpSimulation.ts:22-46 | a reducer step keeps the history's ids unique, and below the next counter value when the drawn id is fresh |
| UseTcpSimulation.FollowUpsSchedule | hooks/useTCPSimulation.ts:27-39 | the delivery effect schedules only CONTINUE_SERVER_CLOSE at 1000 ms and TIMEOUT at 2000 ms; TIMEOUT exactly when it delivers something while the snapshot's client is in TIME_WAIT, and CONTINUE_SERVER_CLOSE exactly when it delivers an ACK while the snapshot's server is in CLOSE_WAIT |
| UseTcpSimulation.CanSendDataIffReducerActs | hooks/useTCPSimulation.ts:100 | canSendData holds if and only if SEND_DATA, and SEND_DATA_SERVER, change the state; when it holds, CLOSE_CONNECTION does too |
| UseTcpSimulation.CloseFlagIsStricterThanReducer | hooks/useTCPSimulation.ts:101 | canCloseConnection, which is canSendData, is off for an ESTABLISHED client with the server in CLOSE_WAIT, although the reducer would close |
| UseTcpSimulation.CanStartHandshakeAndSyn | hooks/useTCPSimulation.ts:99 | with canStartHandshake on, START_HANDSHAKE sends a SYN exactly when the server listens; with it off, it only re-arms the listener |
| UseTcpSimulation.TwoStartsFromServerClosed | hooks/useTCPSimulation.ts:58-68 | two START_HANDSHAKEs from a CLOSED server leave the client in SYN_SENT and the server in LISTEN, with exactly one new packet, a SYN |
| UseTcpSimulation.Simulation.constructor | hooks/useTCPSimulation.ts:12-13 | the hook starts from the initial state, with an empty set and no timers |
| UseTcpSimulation.Simulation.Dispatch | hooks/useTCPSimulation.ts:12 | one reducer step with the next id; the set and the timers are unchanged |
| UseTcpSimulation.Simulation.DeliveryEffect | hooks/useTCPSimulation.ts:16-41 | selects the arrived, unregistered packets of the snapshot; registers each id; applies RECEIVE_PACKET to them in order; appends the follow-up timers the snapshot calls for; ids stay unique and each id is received at most once until the set is cleared |
| UseTcpSimulation.Simulation.DeliverOne | hooks/useTCPSimulation.ts:23-39 | one packet further through the delivery loop: the set, the received ids, the timers and the state each grow by that packet |
| UseTcpSimulation.Simulation.ReceiveOne | hooks/useTCPSimulation.ts:24-25 | register one id, then dispatch RECEIVE_PACKET for its packet |
| UseTcpSimulation.Simulation.NewPacketEffect | hooks/useTCPSimulation.ts:44-55 | selects the fresh, unregistered packets, registers each and schedules its delivery after its own duration; the state is unchanged |
| UseTcpSimulation.Simulation.Frame | lib/tcpSimulation.ts:483-486 | one frame of an animation interval dispatches TICK |
| UseTcpSimulation.Simulation.StartHandshake | hooks/useTCPSimulation.ts:58-68 | clears the set and dispatches START_HANDSHAKE; a second one is scheduled at 500 ms exactly when the server was CLOSED |
| UseTcpSimulation.Simulation.SendData | hooks/useTCPSimulation.ts:70-74 | dispatches SEND_DATA exactly when both parties are ESTABLISHED |
| UseTcpSimulation.Simulation.SendDataServer | hooks/useTCPSimulation.ts:76-80 | dispatches SEND_DATA_SERVER exactly when both parties are ESTABLISHED |
| UseTcpSimulation.Simulation.CloseConnection | hooks/useTCPSimulation.ts:82-86 | dispatches CLOSE_CONNECTION exactly when both parties are ESTABLISHED |
| UseTcpSimulation.Simulation.ResetConnection | hooks/useTCPSimulation.ts:88-91 | clears the set, then dispatches RESET_CONNECTION, which yields the initial state with a listening server; pending timers stay |
| UseTcpSimulation.Simulation.SetAnimationSpeed | hooks/useTCPSimulation.ts:94-96 | dispatches SET_ANIMATION_SPEED, which changes only the speed |
| UseTcpSimulation.Simulation.FireTimer | hooks/useTCPSimulation.ts:29-38 | a pending timer of the environment's choice leaves the list and its action is dispatched |

## Left out

- Rendering: the components, the page and the layout are presentation only. So are
  `statePositions` in `lib/tcpStates.ts`.
- Wall-clock time: a timer is a pending action with its nominal delay. `FireTimer` fires
  any pending timer, so the model allows every firing order, including ones real clocks
  would never produce.
- When the effects run: React runs them after renders whose dependencies changed. The
  model exposes them as methods that the environment may call at any time, which allows
  more runs than React would make.
- `processNewPacket`'s 16 ms `setInterval` of TICK: it is the `Frame` method, which the
  environment calls. Only the delivery timer that `processNewPacket` arms is recorded in
  the timer list. It does not record the interval handle or its `clearInterval`.
- `processNewPacket`'s check `!packet.delivered` when its timer fires: the hook only passes
  packets it selected as undelivered, so the check is always true for the captured packet
  and the model drops it.
- `processDeliveredPackets` (`lib/tcpSimulation.ts:445-477`): the hook never calls it.
- Randomness, uuids and the clock: these are parameters. Packet ids come from a counter,
  which stands for the uniqueness of version-4 uuids. Nothing is proved about ISN values
  beyond their range.
- Floating point: progress is an exact real, so rounding in `16 / duration` is not modelled.
- Labels: the `currentStep` values, flags, event names, descriptions and payload texts are
  carried as data, and no property is stated about them beyond the payload lengths.
- The reducer's `default` branch: the action datatype has exactly ten variants, so it
  cannot be reached.
- The optional sequence and acknowledgment numbers of a packet (`!` in the source): every
  packet the engine creates carries both, so the model always has them.
- Types supplied by React (`useReducer`, `useRef`, `useCallback`): the class stands for
  them.
- TcpTraces.CloseFirstHalf and TcpTraces.CloseSecondHalf: the seven-step close trace is
  stated as these two halves, which meet at FIN_WAIT_2 / CLOSE_WAIT. There is no single
  lemma over all seven steps.
- UseTcpSimulation.Simulation.Dispatch: it draws a fresh id on every dispatch, even when no
  packet is created. The program draws a uuid only when it creates one.
