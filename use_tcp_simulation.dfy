/** The simulation hook: the reducer's state, the set of packet ids already handled, and
    the timers the hook has scheduled. React's effects become methods the environment may
    call at any time; a timer is a pending action with its delay, fired in whatever order
    the environment chooses. */
module UseTcpSimulation {
  import opened TcpStates
  import opened TcpTypes
  import opened TcpSimulation
  import opened TcpLaws

  /** A scheduled `setTimeout`: after `delay` milliseconds, dispatch `action`. */
  datatype Timer = Timer(delay: int, action: Action)

  /** What one dispatch draws besides a packet id: an ISN and a clock reading. */
  datatype Entropy = Entropy(isn: Isn, now: int)

  /** The two selections the effects make over the packet history. */
  datatype Criterion =
    | Arrived  // delivered, progress at least 1: ready for RECEIVE_PACKET
    | Fresh    // not delivered, progress exactly 0: ready to be animated

  predicate Meets(p: Packet, c: Criterion) {
    match c
    case Arrived => p.delivered && p.animation.progress >= 1.0
    case Fresh => !p.delivered && p.animation.progress == 0.0
  }

  /** The packets of `ps` that meet `c` and whose id is not in `seen`, in history order. */
  function Pick(ps: seq<Packet>, seen: set<PacketId>, c: Criterion): seq<Packet>
    decreases |ps|
  {
    if |ps| == 0 then []
    else
      var last := ps[|ps| - 1];
      Pick(ps[..|ps| - 1], seen, c) + (if Meets(last, c) && last.id !in seen then [last] else [])
  }

  /** Pick is the filter the effects run: an order-preserving selection of exactly the
      packets that meet the criterion and have not been seen. */
  lemma PickIsFilter(ps: seq<Packet>, seen: set<PacketId>, c: Criterion)
    ensures IsSubsequence(Pick(ps, seen, c), ps)
    ensures forall k :: 0 <= k < |Pick(ps, seen, c)| ==>
      Meets(Pick(ps, seen, c)[k], c) && Pick(ps, seen, c)[k].id !in seen
    ensures forall i :: 0 <= i < |ps| && Meets(ps[i], c) && ps[i].id !in seen ==>
      ps[i] in Pick(ps, seen, c)
  {
    PickIsSubsequence(ps, seen, c);
    PickQualifies(ps, seen, c);
    PickComplete(ps, seen, c);
  }

  lemma {:induction false} PickIsSubsequence(ps: seq<Packet>, seen: set<PacketId>, c: Criterion)
    ensures IsSubsequence(Pick(ps, seen, c), ps)
    decreases |ps|
  {
    if |ps| > 0 {
      var n := |ps|;
      var init := ps[..n - 1];
      var prefix := Pick(init, seen, c);
      PickIsSubsequence(init, seen, c);
      assert ps == init + [ps[n - 1]];
      if Meets(ps[n - 1], c) && ps[n - 1].id !in seen {
        SubsequenceSnoc(prefix, init, ps[n - 1]);
      } else {
        assert Pick(ps, seen, c) == prefix + [] == prefix;
        SubsequenceExtend(prefix, init, ps[n - 1]);
      }
    }
  }

  lemma {:induction false} PickQualifies(ps: seq<Packet>, seen: set<PacketId>, c: Criterion)
    ensures forall k :: 0 <= k < |Pick(ps, seen, c)| ==>
      Meets(Pick(ps, seen, c)[k], c) && Pick(ps, seen, c)[k].id !in seen
    decreases |ps|
  {
    if |ps| > 0 {
      PickQualifies(ps[..|ps| - 1], seen, c);
    }
  }

  lemma {:induction false} PickComplete(ps: seq<Packet>, seen: set<PacketId>, c: Criterion)
    ensures forall i :: 0 <= i < |ps| && Meets(ps[i], c) && ps[i].id !in seen ==>
      ps[i] in Pick(ps, seen, c)
    decreases |ps|
  {
    if |ps| > 0 {
      var n := |ps|;
      var init := ps[..n - 1];
      PickComplete(init, seen, c);
      forall i | 0 <= i < n - 1 && Meets(ps[i], c) && ps[i].id !in seen
        ensures ps[i] in Pick(ps, seen, c)
      {
        assert init[i] == ps[i];
      }
    }
  }

  /** The ids of a history. */
  function Ids(ps: seq<Packet>): set<PacketId> {
    set k | 0 <= k < |ps| :: ps[k].id
  }

  /** The ids of a history, in order. */
  function IdSeq(ps: seq<Packet>): seq<PacketId> {
    seq(|ps|, k requires 0 <= k < |ps| => ps[k].id)
  }

  predicate UniqueIds(ps: seq<Packet>) {
    forall i, j :: 0 <= i < j < |ps| ==> ps[i].id != ps[j].id
  }

  predicate IdsBelow(ps: seq<Packet>, bound: nat) {
    forall i :: 0 <= i < |ps| ==> ps[i].id < bound
  }

  /** No id occurs twice in a list of ids (the delivery effect's receipts). */
  predicate NoDuplicates(xs: seq<PacketId>) {
    forall i, j :: 0 <= i < j < |xs| ==> xs[i] != xs[j]
  }

  /** The two are one notion: a history has unique ids exactly when its id list has no
      duplicates. */
  lemma UniqueIdsAreNoDuplicates(ps: seq<Packet>)
    ensures UniqueIds(ps) <==> NoDuplicates(IdSeq(ps))
  {
    var xs := IdSeq(ps);
    assert |xs| == |ps| && forall k :: 0 <= k < |ps| ==> xs[k] == ps[k].id;
  }

  /** A selection from a history with unique ids has unique ids. */
  lemma {:induction false} PickKeepsUniqueIds(ps: seq<Packet>, seen: set<PacketId>, c: Criterion)
    requires UniqueIds(ps)
    ensures UniqueIds(Pick(ps, seen, c))
    decreases |ps|
  {
    if |ps| > 0 {
      var n := |ps|;
      var init := ps[..n - 1];
      var prefix := Pick(init, seen, c);
      PickKeepsUniqueIds(init, seen, c);
      if Meets(ps[n - 1], c) && ps[n - 1].id !in seen {
        PickIsFilter(init, seen, c);
        SubsequenceMembers(prefix, init);
        forall k | 0 <= k < |prefix|
          ensures prefix[k].id != ps[n - 1].id
        {
          assert prefix[k] in init;
          var j :| 0 <= j < n - 1 && init[j] == prefix[k];
          assert ps[j] == prefix[k];
        }
      } else {
        assert Pick(ps, seen, c) == prefix;
      }
    }
  }

  /** Registering what was selected makes the same selection empty: each packet is picked
      at most once until the set is cleared. */
  lemma PickThenRegister(ps: seq<Packet>, seen: set<PacketId>, c: Criterion)
    ensures Pick(ps, seen + Ids(Pick(ps, seen, c)), c) == []
  {
    var picked := Pick(ps, seen, c);
    PickIsFilter(ps, seen, c);
    forall i | 0 <= i < |ps| && Meets(ps[i], c) && ps[i].id !in seen
      ensures ps[i].id in Ids(picked)
    {
      var k :| 0 <= k < |picked| && picked[k] == ps[i];
    }
    PickNone(ps, seen + Ids(picked), c);
  }

  /** Nothing qualifies, nothing is picked. */
  lemma {:induction false} PickNone(ps: seq<Packet>, seen: set<PacketId>, c: Criterion)
    requires forall i :: 0 <= i < |ps| ==> !(Meets(ps[i], c) && ps[i].id !in seen)
    ensures Pick(ps, seen, c) == []
    decreases |ps|
  {
    if |ps| > 0 {
      PickNone(ps[..|ps| - 1], seen, c);
    }
  }

  /** The two effects share one set, so a packet registered when its animation starts is
      never selected by the delivery effect afterwards, whatever the history has become. */
  lemma AnimatedPacketsSkipDeliveryEffect(ps: seq<Packet>, seen: set<PacketId>,
                                          later: seq<Packet>, seenLater: set<PacketId>)
    requires seen + Ids(Pick(ps, seen, Fresh)) <= seenLater
    ensures forall k :: 0 <= k < |Pick(later, seenLater, Arrived)| ==>
      Pick(later, seenLater, Arrived)[k].id !in Ids(Pick(ps, seen, Fresh))
  {
    PickIsFilter(later, seenLater, Arrived);
  }

  /** In one snapshot the two effects pick disjoint packets. */
  lemma EffectsPickDisjointPackets(ps: seq<Packet>, seen: set<PacketId>)
    ensures forall p :: p in Pick(ps, seen, Arrived) ==> p !in Pick(ps, seen, Fresh)
  {
    PickIsFilter(ps, seen, Arrived);
    PickIsFilter(ps, seen, Fresh);
  }

  /** Every reducer step keeps the history's ids unique and below the next fresh id. */
  lemma DispatchKeepsIdsFresh(s: ConnectionState, a: Action, d: Draw)
    requires UniqueIds(s.packets) && IdsBelow(s.packets, d.id)
    ensures UniqueIds(TcpReducer(s, a, d).packets)
    ensures IdsBelow(TcpReducer(s, a, d).packets, d.id + 1)
  {
    ReducerKeepsHistory(s, a, d);
    if a != ResetConnection {
      ExtendsKeepsIdsFresh(s.packets, TcpReducer(s, a, d).packets, d.id, s.animationSpeed);
    }
  }

  /** A history that extends `prev` by at most a packet with id `id` keeps ids unique and
      below `id + 1` when `prev` had them unique and below `id`. */
  lemma ExtendsKeepsIdsFresh(prev: seq<Packet>, next: seq<Packet>, id: PacketId, speed: int)
    requires ExtendsHistory(prev, next, id, speed)
    requires UniqueIds(prev) && IdsBelow(prev, id)
    ensures UniqueIds(next) && IdsBelow(next, id + 1)
  {
    forall i | 0 <= i < |prev| ensures next[i].id == prev[i].id {
      assert SameSegment(prev[i], next[i]);
    }
  }

  /** The timers the delivery effect schedules for one delivered packet, decided on the
      snapshot the effect runs in. */
  function FollowUp(snapshot: ConnectionState, p: Packet): seq<Timer> {
    (if snapshot.serverState == CloseWait && p.kind == Ack then [Timer(1000, ContinueServerClose)] else [])
    + (if snapshot.clientState == TimeWait then [Timer(2000, Timeout)] else [])
  }

  function FollowUps(snapshot: ConnectionState, ps: seq<Packet>): seq<Timer>
    decreases |ps|
  {
    if |ps| == 0 then [] else FollowUps(snapshot, ps[..|ps| - 1]) + FollowUp(snapshot, ps[|ps| - 1])
  }

  /** The delivery effect schedules only CONTINUE_SERVER_CLOSE after 1000 ms and TIMEOUT
      after 2000 ms; TIMEOUT exactly when it delivers something while the snapshot's client
      is in TIME_WAIT, CONTINUE_SERVER_CLOSE exactly when it delivers an ACK while the
      snapshot's server is in CLOSE_WAIT. */
  lemma {:induction false} FollowUpsSchedule(snapshot: ConnectionState, ps: seq<Packet>)
    ensures forall t :: t in FollowUps(snapshot, ps) ==>
      t == Timer(1000, ContinueServerClose) || t == Timer(2000, Timeout)
    ensures Timer(2000, Timeout) in FollowUps(snapshot, ps) <==>
      |ps| > 0 && snapshot.clientState == TimeWait
    ensures Timer(1000, ContinueServerClose) in FollowUps(snapshot, ps) <==>
      snapshot.serverState == CloseWait && exists k :: 0 <= k < |ps| && ps[k].kind == Ack
    decreases |ps|
  {
    if |ps| > 0 {
      var init := ps[..|ps| - 1];
      FollowUpsSchedule(snapshot, init);
      if snapshot.serverState == CloseWait && (exists k :: 0 <= k < |ps| && ps[k].kind == Ack) {
        var k :| 0 <= k < |ps| && ps[k].kind == Ack;
        if k < |ps| - 1 {
          assert init[k].kind == Ack;
        }
      }
      if Timer(1000, ContinueServerClose) in FollowUps(snapshot, init) {
        var k :| 0 <= k < |init| && init[k].kind == Ack;
        assert ps[k].kind == Ack;
      }
    }
  }

  /** The timers the new-packet effect schedules: each animated packet is received, marked
      delivered, once its duration has passed. */
  function DeliveryTimers(ps: seq<Packet>): seq<Timer> {
    seq(|ps|, k requires 0 <= k < |ps| =>
      Timer(ps[k].animation.duration, ReceivePacket(ps[k].(delivered := true))))
  }

  /** The draw of the `k`-th dispatch of a batch whose first packet id is `id0`. */
  function DrawAt(es: seq<Entropy>, k: nat, id0: nat): Draw
    requires k < |es|
  {
    Draw(es[k].isn, id0 + k, es[k].now)
  }

  /** The state after dispatching RECEIVE_PACKET for each of the first `n` packets of `ps`,
      in order. */
  function ReceiveAll(s: ConnectionState, ps: seq<Packet>, es: seq<Entropy>, id0: nat, n: nat): ConnectionState
    requires n <= |ps| <= |es|
  {
    if n == 0 then s
    else TcpReducer(ReceiveAll(s, ps, es, id0, n - 1), ReceivePacket(ps[n - 1]), DrawAt(es, n - 1, id0))
  }

  /** ReceiveAll one packet further. */
  lemma ReceiveAllNext(s: ConnectionState, ps: seq<Packet>, es: seq<Entropy>, id0: nat, n: nat)
    requires n < |ps| <= |es|
    ensures ReceiveAll(s, ps, es, id0, n + 1)
      == TcpReducer(ReceiveAll(s, ps, es, id0, n), ReceivePacket(ps[n]), Draw(es[n].isn, id0 + n, es[n].now))
  {
  }

  /** How the delivery effect's bookkeeping grows by one packet. */
  lemma DeliveryStep(snapshot: ConnectionState, ps: seq<Packet>, i: nat, es: seq<Entropy>, id0: nat)
    requires i < |ps| <= |es|
    requires UniqueIds(ps)
    ensures ps[i].id !in Ids(ps[..i])
    ensures Ids(ps[..i + 1]) == Ids(ps[..i]) + {ps[i].id}
    ensures IdSeq(ps[..i + 1]) == IdSeq(ps[..i]) + [ps[i].id]
    ensures FollowUps(snapshot, ps[..i + 1]) == FollowUps(snapshot, ps[..i]) + FollowUp(snapshot, ps[i])
  {
    assert ps[..i + 1][..i] == ps[..i];
  }

  /** The new-packet effect registers every fresh packet, so once it has run on a history
      whose other packets were already registered, every id of that history is
      registered. */
  lemma NewPacketEffectRegistersAll(ps: seq<Packet>, seen: set<PacketId>)
    requires forall i :: 0 <= i < |ps| ==> Meets(ps[i], Fresh) || ps[i].id in seen
    ensures Ids(ps) <= seen + Ids(Pick(ps, seen, Fresh))
  {
    var started := Pick(ps, seen, Fresh);
    PickComplete(ps, seen, Fresh);
    forall i | 0 <= i < |ps| && ps[i].id !in seen
      ensures ps[i].id in Ids(started)
    {
      var k :| 0 <= k < |started| && started[k] == ps[i];
    }
  }

  /** With every id of the snapshot registered, the delivery effect selects nothing,
      schedules no timer and dispatches nothing, whatever the connection states are. */
  lemma DeliveryEffectIdleWhenAllRegistered(s: ConnectionState, seen: set<PacketId>,
                                            es: seq<Entropy>, id0: nat)
    requires Ids(s.packets) <= seen
    ensures Pick(s.packets, seen, Arrived) == []
    ensures FollowUps(s, Pick(s.packets, seen, Arrived)) == []
    ensures ReceiveAll(s, Pick(s.packets, seen, Arrived), es, id0, 0) == s
  {
    forall i | 0 <= i < |s.packets|
      ensures s.packets[i].id in seen
    {
      assert s.packets[i].id in Ids(s.packets);
    }
    PickNone(s.packets, seen, Arrived);
  }

  /** The new-packet effect's timers only deliver packets: CONTINUE_SERVER_CLOSE and
      TIMEOUT are scheduled by the delivery effect alone. */
  lemma DeliveryTimersOnlyReceive(ps: seq<Packet>)
    ensures |DeliveryTimers(ps)| == |ps|
    ensures forall k :: 0 <= k < |ps| ==>
      DeliveryTimers(ps)[k] == Timer(ps[k].animation.duration, ReceivePacket(ps[k].(delivered := true)))
    ensures forall t :: t in DeliveryTimers(ps) ==> t.action.ReceivePacket?
  {
  }

  /** Registering an unregistered id and recording its receipt keeps the receipts free of
      duplicates and inside the set. */
  lemma RegisterKeepsReceipts(received: seq<PacketId>, processed: set<PacketId>, id: PacketId)
    requires NoDuplicates(received) && (forall k :: 0 <= k < |received| ==> received[k] in processed)
    requires id !in processed
    ensures NoDuplicates(received + [id])
    ensures forall k :: 0 <= k < |received + [id]| ==> (received + [id])[k] in processed + {id}
  {
  }

  /** canStartHandshake. */
  predicate CanStartHandshake(s: ConnectionState) {
    s.clientState == Closed || s.serverState == Listen
  }

  /** canSendData. */
  predicate CanSendData(s: ConnectionState) {
    s.clientState == Established && s.serverState == Established
  }

  /** canCloseConnection: the same flag as canSendData. */
  predicate CanCloseConnection(s: ConnectionState) {
    CanSendData(s)
  }

  /** canSendData is exactly the condition under which SEND_DATA, and SEND_DATA_SERVER,
      change the state; when it holds, CLOSE_CONNECTION changes the state too. */
  lemma CanSendDataIffReducerActs(s: ConnectionState, d: Draw)
    ensures CanSendData(s) <==> TcpReducer(s, SendData, d) != s
    ensures CanSendData(s) <==> TcpReducer(s, SendDataServer, d) != s
    ensures CanCloseConnection(s) ==> TcpReducer(s, CloseConnection, d) != s
  {
    if CanSendData(s) {
      assert |TcpReducer(s, SendData, d).packets| == |s.packets| + 1;
      assert |TcpReducer(s, SendDataServer, d).packets| == |s.packets| + 1;
      assert |TcpReducer(s, CloseConnection, d).packets| == |s.packets| + 1;
    }
  }

  /** canCloseConnection is stricter than the reducer: a client that is ESTABLISHED while
      the server is already in CLOSE_WAIT may close, but the flag is off. */
  lemma CloseFlagIsStricterThanReducer(d: Draw)
    ensures var s := InitialConnectionState.(clientState := Established, serverState := CloseWait);
      !CanCloseConnection(s) && TcpReducer(s, CloseConnection, d).clientState == FinWait1
  {
  }

  /** With canStartHandshake on, START_HANDSHAKE sends a SYN exactly when the server is
      listening; with it off (client not CLOSED, server not listening) it re-arms the
      listener and sends nothing. */
  lemma CanStartHandshakeAndSyn(s: ConnectionState, d: Draw)
    ensures CanStartHandshake(s) ==>
      (|TcpReducer(s, StartHandshake, d).packets| == |s.packets| + 1 <==> s.serverState == Listen)
    ensures !CanStartHandshake(s) ==>
      TcpReducer(s, StartHandshake, d) == s.(serverState := Listen)
  {
  }

  /** startHandshake from a CLOSED server dispatches START_HANDSHAKE twice: the first opens
      the listener, the second sends the one SYN. */
  lemma TwoStartsFromServerClosed(s: ConnectionState, d1: Draw, d2: Draw)
    requires s.serverState == Closed
    ensures var r := TcpReducer(TcpReducer(s, StartHandshake, d1), StartHandshake, d2);
      && r.clientState == SynSent && r.serverState == Listen
      && |r.packets| == |s.packets| + 1
      && r.packets[..|s.packets|] == s.packets
      && r.packets[|s.packets|].kind == Syn
  {
  }

  class Simulation {
    var state: ConnectionState
    /** `processedPackets`. */
    var processed: set<PacketId>
    var timers: seq<Timer>
    /** The id the next created packet gets (a uuid in the program). */
    var nextId: nat
    /** The ids the delivery effect has dispatched RECEIVE_PACKET for since the set was
        last cleared. */
    ghost var received: seq<PacketId>

    ghost predicate Valid()
      reads this
    {
      && UniqueIds(state.packets) && IdsBelow(state.packets, nextId)
      && NoDuplicates(received)
      && (forall k :: 0 <= k < |received| ==> received[k] in processed)
    }

    constructor ()
      ensures Valid()
      ensures state == InitialConnectionState && processed == {} && timers == [] && received == []
    {
      state := InitialConnectionState;
      processed := {};
      timers := [];
      nextId := 0;
      received := [];
    }

    /** `dispatch`: one reducer step, drawing the next packet id. */
    method Dispatch(a: Action, e: Entropy)
      requires Valid()
      modifies this
      ensures Valid()
      ensures state == TcpReducer(old(state), a, Draw(e.isn, old(nextId), e.now))
      ensures nextId == old(nextId) + 1
      ensures processed == old(processed) && timers == old(timers) && received == old(received)
    {
      DispatchKeepsIdsFresh(state, a, Draw(e.isn, nextId, e.now));
      state := TcpReducer(state, a, Draw(e.isn, nextId, e.now));
      nextId := nextId + 1;
    }

    /** The delivery effect: select the arrived, unprocessed packets of the current
        snapshot; for each, register its id, dispatch RECEIVE_PACKET and schedule the
        follow-up timers the snapshot calls for. */
    method DeliveryEffect(entropy: seq<Entropy>) returns (delivered: seq<Packet>)
      requires Valid()
      requires |Pick(state.packets, processed, Arrived)| <= |entropy|
      modifies this
      ensures Valid()
      ensures delivered == Pick(old(state).packets, old(processed), Arrived)
      ensures processed == old(processed) + Ids(delivered)
      ensures received == old(received) + IdSeq(delivered)
      ensures timers == old(timers) + FollowUps(old(state), delivered)
      ensures state == ReceiveAll(old(state), delivered, entropy, old(nextId), |delivered|)
      ensures nextId == old(nextId) + |delivered|
    {
      var snapshot := state;
      var id0 := nextId;
      ghost var processed0, received0, timers0 := processed, received, timers;
      delivered := Pick(state.packets, processed, Arrived);
      PickQualifies(state.packets, processed, Arrived);
      PickKeepsUniqueIds(state.packets, processed, Arrived);
      var i := 0;
      while i < |delivered|
        invariant 0 <= i <= |delivered| <= |entropy|
        invariant Valid()
        invariant processed == processed0 + Ids(delivered[..i])
        invariant received == received0 + IdSeq(delivered[..i])
        invariant timers == timers0 + FollowUps(snapshot, delivered[..i])
        invariant state == ReceiveAll(snapshot, delivered, entropy, id0, i)
        invariant nextId == id0 + i
      {
        DeliverOne(snapshot, delivered, i, entropy, id0, processed0, received0, timers0);
        i := i + 1;
      }
      assert delivered[..i] == delivered;
    }

    /** One iteration of the delivery effect: register the `i`-th selected packet,
        dispatch RECEIVE_PACKET for it and schedule the follow-ups `snapshot` calls for. */
    method DeliverOne(snapshot: ConnectionState, ps: seq<Packet>, i: nat, es: seq<Entropy>, id0: nat,
                      ghost processed0: set<PacketId>, ghost received0: seq<PacketId>,
                      ghost timers0: seq<Timer>)
      requires Valid()
      requires i < |ps| <= |es|
      requires UniqueIds(ps)
      requires forall k :: 0 <= k < |ps| ==> ps[k].id !in processed0
      requires processed == processed0 + Ids(ps[..i])
      requires received == received0 + IdSeq(ps[..i])
      requires timers == timers0 + FollowUps(snapshot, ps[..i])
      requires state == ReceiveAll(snapshot, ps, es, id0, i) && nextId == id0 + i
      modifies this
      ensures Valid()
      ensures processed == processed0 + Ids(ps[..i + 1])
      ensures received == received0 + IdSeq(ps[..i + 1])
      ensures timers == timers0 + FollowUps(snapshot, ps[..i + 1])
      ensures state == ReceiveAll(snapshot, ps, es, id0, i + 1) && nextId == id0 + i + 1
    {
      DeliveryStep(snapshot, ps, i, es, id0);
      ReceiveOne(snapshot, ps, i, es, id0);
    }

    /** The state change of one iteration: register the packet, then dispatch
        RECEIVE_PACKET for it. */
    method ReceiveOne(snapshot: ConnectionState, ps: seq<Packet>, i: nat, es: seq<Entropy>, id0: nat)
      requires Valid()
      requires i < |ps| <= |es|
      requires ps[i].id !in processed
      requires state == ReceiveAll(snapshot, ps, es, id0, i) && nextId == id0 + i
      modifies this
      ensures Valid()
      ensures processed == old(processed) + {ps[i].id} && received == old(received) + [ps[i].id]
      ensures state == ReceiveAll(snapshot, ps, es, id0, i + 1) && nextId == id0 + i + 1
      ensures timers == old(timers) + FollowUp(snapshot, ps[i])
    {
      RegisterKeepsReceipts(received, processed, ps[i].id);
      processed := processed + {ps[i].id};
      received := received + [ps[i].id];
      ReceiveAllNext(snapshot, ps, es, id0, i);
      Dispatch(ReceivePacket(ps[i]), es[i]);
      timers := timers + FollowUp(snapshot, ps[i]);
    }

    /** The new-packet effect: select the packets that have not started moving and are not
        yet registered, register each and schedule its arrival. */
    method NewPacketEffect() returns (started: seq<Packet>)
      requires Valid()
      modifies this
      ensures Valid()
      ensures started == Pick(old(state).packets, old(processed), Fresh)
      ensures processed == old(processed) + Ids(started)
      ensures timers == old(timers) + DeliveryTimers(started)
      ensures state == old(state) && nextId == old(nextId) && received == old(received)
    {
      started := Pick(state.packets, processed, Fresh);
      var i := 0;
      while i < |started|
        invariant 0 <= i <= |started|
        invariant Valid()
        invariant processed == old(processed) + Ids(started[..i])
        invariant timers == old(timers) + DeliveryTimers(started[..i])
        invariant state == old(state) && nextId == old(nextId) && received == old(received)
      {
        var p := started[i];
        assert Ids(started[..i + 1]) == Ids(started[..i]) + {p.id};
        assert DeliveryTimers(started[..i + 1]) == DeliveryTimers(started[..i])
          + [Timer(p.animation.duration, ReceivePacket(p.(delivered := true)))];
        processed := processed + {p.id};
        timers := timers + [Timer(p.animation.duration, ReceivePacket(p.(delivered := true)))];
        i := i + 1;
      }
      assert started[..i] == started;
    }

    /** One frame of a packet's animation interval. */
    method Frame(e: Entropy)
      requires Valid()
      modifies this
      ensures Valid()
      ensures state == TcpReducer(old(state), Tick, Draw(e.isn, old(nextId), e.now))
      ensures nextId == old(nextId) + 1
      ensures processed == old(processed) && timers == old(timers) && received == old(received)
    {
      Dispatch(Tick, e);
    }

    /** startHandshake: clear the set, dispatch START_HANDSHAKE, and when the server is
        CLOSED schedule a second one after 500 ms. */
    method StartHandshake(e: Entropy)
      requires Valid()
      modifies this
      ensures Valid()
      ensures processed == {} && received == []
      ensures state == TcpReducer(old(state), Action.StartHandshake, Draw(e.isn, old(nextId), e.now))
      ensures nextId == old(nextId) + 1
      ensures timers == old(timers) +
        (if old(state).serverState == Closed then [Timer(500, Action.StartHandshake)] else [])
    {
      processed := {};
      received := [];
      var wasClosed := state.serverState == Closed;
      Dispatch(Action.StartHandshake, e);
      if wasClosed {
        timers := timers + [Timer(500, Action.StartHandshake)];
      }
    }

    /** sendData: dispatch SEND_DATA when both parties are ESTABLISHED. */
    method SendData(e: Entropy)
      requires Valid()
      modifies this
      ensures Valid()
      ensures state == if CanSendData(old(state))
        then TcpReducer(old(state), Action.SendData, Draw(e.isn, old(nextId), e.now)) else old(state)
      ensures nextId == old(nextId) + (if CanSendData(old(state)) then 1 else 0)
      ensures processed == old(processed) && timers == old(timers) && received == old(received)
    {
      if CanSendData(state) {
        Dispatch(Action.SendData, e);
      }
    }

    /** sendDataServer: dispatch SEND_DATA_SERVER when both parties are ESTABLISHED. */
    method SendDataServer(e: Entropy)
      requires Valid()
      modifies this
      ensures Valid()
      ensures state == if CanSendData(old(state))
        then TcpReducer(old(state), Action.SendDataServer, Draw(e.isn, old(nextId), e.now)) else old(state)
      ensures nextId == old(nextId) + (if CanSendData(old(state)) then 1 else 0)
      ensures processed == old(processed) && timers == old(timers) && received == old(received)
    {
      if CanSendData(state) {
        Dispatch(Action.SendDataServer, e);
      }
    }

    /** closeConnection: dispatch CLOSE_CONNECTION when both parties are ESTABLISHED. */
    method CloseConnection(e: Entropy)
      requires Valid()
      modifies this
      ensures Valid()
      ensures state == if CanCloseConnection(old(state))
        then TcpReducer(old(state), Action.CloseConnection, Draw(e.isn, old(nextId), e.now)) else old(state)
      ensures nextId == old(nextId) + (if CanCloseConnection(old(state)) then 1 else 0)
      ensures processed == old(processed) && timers == old(timers) && received == old(received)
    {
      if CanCloseConnection(state) {
        Dispatch(Action.CloseConnection, e);
      }
    }

    /** resetConnection: clear the set and dispatch RESET_CONNECTION. Pending timers are not
        cancelled. */
    method ResetConnection(e: Entropy)
      requires Valid()
      modifies this
      ensures Valid()
      ensures processed == {} && received == []
      ensures state == TcpReducer(old(state), Action.ResetConnection, Draw(e.isn, old(nextId), e.now))
      ensures state == ResetState
      ensures nextId == old(nextId) + 1 && timers == old(timers)
    {
      processed := {};
      received := [];
      Dispatch(Action.ResetConnection, e);
    }

    /** setAnimationSpeed. */
    method SetAnimationSpeed(speed: int, e: Entropy)
      requires Valid()
      modifies this
      ensures Valid()
      ensures state == old(state).(animationSpeed := speed)
      ensures nextId == old(nextId) + 1
      ensures processed == old(processed) && timers == old(timers) && received == old(received)
    {
      Dispatch(Action.SetAnimationSpeed(speed), e);
    }

    /** A pending timer expires: it leaves the list and its action is dispatched. */
    method FireTimer(k: nat, e: Entropy)
      requires Valid()
      requires k < |timers|
      modifies this
      ensures Valid()
      ensures timers == old(timers[..k] + timers[k + 1..])
      ensures state == TcpReducer(old(state), old(timers[k].action), Draw(e.isn, old(nextId), e.now))
      ensures nextId == old(nextId) + 1
      ensures processed == old(processed) && received == old(received)
    {
      var t := timers[k];
      timers := timers[..k] + timers[k + 1..];
      Dispatch(t.action, e);
    }
  }
}
