/** The canonical TCP state machine used by the visualiser: eleven states,
    nineteen directed rows, and the two filter queries over the rows. */
module TcpStates {

  datatype TcpState =
    | Closed | Listen | SynSent | SynReceived | Established
    | FinWait1 | FinWait2 | CloseWait | LastAck | Closing | TimeWait

  /** The optional isClientInitiated / isServerInitiated flags of a row; no row sets both. */
  datatype Initiator = ClientInitiated | ServerInitiated | Unflagged

  datatype Transition = Transition(
    from: TcpState,
    to: TcpState,
    event: string,
    description: string,
    initiator: Initiator)

  const States: seq<TcpState> := [
    Closed, Listen, SynSent, SynReceived, Established,
    FinWait1, FinWait2, CloseWait, LastAck, Closing, TimeWait
  ]

  // Display labels of the rows (the `event` and `description` fields).
  const OnListen: string := "listen()"
  const OnConnect: string := "connect()"
  const OnSyn: string := "SYN"
  const OnClose: string := "close()"
  const OnSynAckThenAck: string := "SYN-ACK / ACK"
  const OnTimeoutOrRst: string := "Timeout/RST"
  const OnAck: string := "ACK"
  const OnFin: string := "FIN"
  const OnFinThenAck: string := "FIN / ACK"
  const OnFinAck: string := "FIN-ACK"
  const OnTimeout2Msl: string := "Timeout (2MSL)"
  const ServerSocketOpened: string := "Server socket opened"
  const ClientInitiatesConnection: string := "Client initiates connection"
  const ServerReceivesSynSendsSynAck: string := "Server receives SYN, sends SYN-ACK"
  const ServerSocketClosed: string := "Server socket closed"
  const ClientReceivesSynAckSendsAck: string := "Client receives SYN-ACK, sends ACK"
  const ConnectionFailedOrReset: string := "Connection failed or reset"
  const ServerReceivesAck: string := "Server receives ACK"
  const ServerClosesImmediatelyAfterHandshake: string := "Server closes immediately after handshake"
  const ClientInitiatesConnectionTermination: string := "Client initiates connection termination"
  const ServerReceivesTerminationRequest: string := "Server receives termination request"
  const ClientReceivesAckForFin: string := "Client receives ACK for FIN"
  const ClientReceivesFinSendsAck: string := "Client receives FIN, sends ACK"
  const ClientReceivesFinAckSendsAck: string := "Client receives FIN+ACK, sends ACK"
  const ServerSendsFin: string := "Server sends FIN"
  const ServerReceivesFinalAck: string := "Server receives final ACK"
  const WaitTimeoutCompletes: string := "Wait timeout completes"

  const Transitions: seq<Transition> := [
    Transition(Closed, Listen, OnListen, ServerSocketOpened, ServerInitiated),
    Transition(Closed, SynSent, OnConnect, ClientInitiatesConnection, ClientInitiated),
    Transition(Listen, SynReceived, OnSyn, ServerReceivesSynSendsSynAck, ClientInitiated),
    Transition(Listen, Closed, OnClose, ServerSocketClosed, ServerInitiated),
    Transition(SynSent, Established, OnSynAckThenAck, ClientReceivesSynAckSendsAck, ServerInitiated),
    Transition(SynSent, Closed, OnTimeoutOrRst, ConnectionFailedOrReset, Unflagged),
    Transition(SynReceived, Established, OnAck, ServerReceivesAck, ClientInitiated),
    Transition(SynReceived, FinWait1, OnClose, ServerClosesImmediatelyAfterHandshake, ServerInitiated),
    Transition(SynReceived, Closed, OnTimeoutOrRst, ConnectionFailedOrReset, Unflagged),
    Transition(Established, FinWait1, OnClose, ClientInitiatesConnectionTermination, ClientInitiated),
    Transition(Established, CloseWait, OnFin, ServerReceivesTerminationRequest, ServerInitiated),
    Transition(FinWait1, FinWait2, OnAck, ClientReceivesAckForFin, ServerInitiated),
    Transition(FinWait1, Closing, OnFinThenAck, ClientReceivesFinSendsAck, ServerInitiated),
    Transition(FinWait1, TimeWait, OnFinAck, ClientReceivesFinAckSendsAck, ServerInitiated),
    Transition(FinWait2, TimeWait, OnFinThenAck, ClientReceivesFinSendsAck, ServerInitiated),
    Transition(CloseWait, LastAck, OnClose, ServerSendsFin, ServerInitiated),
    Transition(LastAck, Closed, OnAck, ServerReceivesFinalAck, ClientInitiated),
    Transition(Closing, TimeWait, OnAck, ClientReceivesAckForFin, ServerInitiated),
    Transition(TimeWait, Closed, OnTimeout2Msl, WaitTimeoutCompletes, Unflagged)
  ]


  /** Which end of a row a query filters on. */
  datatype Endpoint = Source | Target

  function EndOf(t: Transition, e: Endpoint): TcpState {
    if e == Source then t.from else t.to
  }

  /** `a` can be obtained from `b` by deleting elements, keeping the order of the rest. */
  ghost predicate IsSubsequence<T>(a: seq<T>, b: seq<T>)
    decreases |b|
  {
    if a == [] then true
    else if b == [] then false
    else (a[|a| - 1] == b[|b| - 1] && IsSubsequence(a[..|a| - 1], b[..|b| - 1]))
         || IsSubsequence(a, b[..|b| - 1])
  }

  /** The rows among the first `n` of `rows` whose endpoint `e` is `s`, in table order:
      the `filter` call both queries make. */
  function Select(rows: seq<Transition>, e: Endpoint, s: TcpState, n: nat): seq<Transition>
    requires n <= |rows|
  {
    if n == 0 then []
    else Select(rows, e, s, n - 1) + (if EndOf(rows[n - 1], e) == s then [rows[n - 1]] else [])
  }

  /** The selection keeps table order: it is a subsequence of the rows it scanned. */
  lemma {:induction false} SelectIsSubsequence(rows: seq<Transition>, e: Endpoint, s: TcpState, n: nat)
    requires n <= |rows|
    ensures IsSubsequence(Select(rows, e, s, n), rows[..n])
  {
    if n > 0 {
      SelectIsSubsequence(rows, e, s, n - 1);
      assert rows[..n] == rows[..n - 1] + [rows[n - 1]];
      if EndOf(rows[n - 1], e) == s {
        SubsequenceSnoc(Select(rows, e, s, n - 1), rows[..n - 1], rows[n - 1]);
      } else {
        var prefix := Select(rows, e, s, n - 1);
        assert Select(rows, e, s, n) == prefix + [] == prefix;
        SubsequenceExtend(Select(rows, e, s, n - 1), rows[..n - 1], rows[n - 1]);
      }
    }
  }

  /** Appending the same element to both sides keeps a subsequence. */
  lemma SubsequenceSnoc<T>(a: seq<T>, b: seq<T>, x: T)
    requires IsSubsequence(a, b)
    ensures IsSubsequence(a + [x], b + [x])
  {
    assert (a + [x])[..|a|] == a;
    assert (b + [x])[..|b|] == b;
  }

  /** Appending to the whole keeps a subsequence. */
  lemma SubsequenceExtend<T>(a: seq<T>, b: seq<T>, x: T)
    requires IsSubsequence(a, b)
    ensures IsSubsequence(a, b + [x])
  {
    assert (b + [x])[..|b|] == b;
  }

  /** The selection lists only matching rows, and misses none of the rows it scanned. */
  lemma {:induction false} SelectIsExact(rows: seq<Transition>, e: Endpoint, s: TcpState, n: nat)
    requires n <= |rows|
    ensures forall k :: 0 <= k < |Select(rows, e, s, n)| ==> EndOf(Select(rows, e, s, n)[k], e) == s
    ensures forall i :: 0 <= i < n && EndOf(rows[i], e) == s ==> rows[i] in Select(rows, e, s, n)
  {
    if n > 0 {
      SelectIsExact(rows, e, s, n - 1);
    }
  }

  /** Rows that do not match leave the selection unchanged. */
  lemma {:induction false} SelectSkips(rows: seq<Transition>, e: Endpoint, s: TcpState, m: nat, n: nat)
    requires m <= n <= |rows|
    requires forall i :: m <= i < n ==> EndOf(rows[i], e) != s
    ensures Select(rows, e, s, n) == Select(rows, e, s, m)
    decreases n
  {
    if m < n {
      SelectSkips(rows, e, s, m, n - 1);
    }
  }

  /** Every element of a subsequence is an element of the whole. */
  lemma {:induction false} SubsequenceMembers<T>(a: seq<T>, b: seq<T>)
    requires IsSubsequence(a, b)
    ensures forall x :: x in a ==> x in b
    decreases |b|
  {
    if a != [] {
      assert b != [];
      if a[|a| - 1] == b[|b| - 1] && IsSubsequence(a[..|a| - 1], b[..|b| - 1]) {
        SubsequenceMembers(a[..|a| - 1], b[..|b| - 1]);
        assert a == a[..|a| - 1] + [a[|a| - 1]];
        assert b == b[..|b| - 1] + [b[|b| - 1]];
      } else {
        SubsequenceMembers(a, b[..|b| - 1]);
        assert b == b[..|b| - 1] + [b[|b| - 1]];
      }
    }
  }

  /** getNextStates: the rows leaving `s`. */
  function GetNextStates(s: TcpState): seq<Transition> {
    Select(Transitions, Source, s, |Transitions|)
  }

  /** getIncomingTransitions: the rows entering `s`. */
  function GetIncomingTransitions(s: TcpState): seq<Transition> {
    Select(Transitions, Target, s, |Transitions|)
  }

  /** getNextStates(s) is exactly the rows with `from == s`, in table order. */
  lemma GetNextStatesIsFilter(s: TcpState)
    ensures IsSubsequence(GetNextStates(s), Transitions)
    ensures forall k :: 0 <= k < |GetNextStates(s)| ==> GetNextStates(s)[k].from == s
    ensures forall i :: 0 <= i < |Transitions| && Transitions[i].from == s ==> Transitions[i] in GetNextStates(s)
  {
    SelectIsSubsequence(Transitions, Source, s, |Transitions|);
    SelectIsExact(Transitions, Source, s, |Transitions|);
    assert Transitions[..|Transitions|] == Transitions;
  }

  /** getIncomingTransitions(s) is exactly the rows with `to == s`, in table order. */
  lemma GetIncomingTransitionsIsFilter(s: TcpState)
    ensures IsSubsequence(GetIncomingTransitions(s), Transitions)
    ensures forall k :: 0 <= k < |GetIncomingTransitions(s)| ==> GetIncomingTransitions(s)[k].to == s
    ensures forall i :: 0 <= i < |Transitions| && Transitions[i].to == s ==> Transitions[i] in GetIncomingTransitions(s)
  {
    SelectIsSubsequence(Transitions, Target, s, |Transitions|);
    SelectIsExact(Transitions, Target, s, |Transitions|);
    assert Transitions[..|Transitions|] == Transitions;
  }

  /** The table has a row from `a` to `b`. */
  predicate HasRow(a: TcpState, b: TcpState) {
    exists k :: 0 <= k < |Transitions| && Transitions[k].from == a && Transitions[k].to == b
  }

  /** Row `k` of the table witnesses HasRow for its own endpoints. */
  lemma Row(k: nat)
    requires k < |Transitions|
    ensures HasRow(Transitions[k].from, Transitions[k].to)
  {
  }

  /** HasRow agrees with getNextStates: a row from `a` to `b` is listed by getNextStates(a),
      and whatever it lists is a row of the table. */
  lemma HasRowIsNextState(a: TcpState, b: TcpState)
    ensures HasRow(a, b) <==> exists t :: t in GetNextStates(a) && t.to == b
  {
    var next := GetNextStates(a);
    GetNextStatesIsFilter(a);
    if HasRow(a, b) {
      var k :| 0 <= k < |Transitions| && Transitions[k].from == a && Transitions[k].to == b;
      assert Transitions[k] in next;
    } else if t :| t in next && t.to == b {
      SubsequenceMembers(next, Transitions);
    }
  }

  /** HasRow agrees with getIncomingTransitions in the same way. */
  lemma HasRowIsIncoming(a: TcpState, b: TcpState)
    ensures HasRow(a, b) <==> exists t :: t in GetIncomingTransitions(b) && t.from == a
  {
    var incoming := GetIncomingTransitions(b);
    GetIncomingTransitionsIsFilter(b);
    if HasRow(a, b) {
      var k :| 0 <= k < |Transitions| && Transitions[k].from == a && Transitions[k].to == b;
      assert Transitions[k] in incoming;
    } else if t :| t in incoming && t.from == a {
      SubsequenceMembers(incoming, Transitions);
    }
  }

  /** Position of each state in `States`. */
  function StateIndex(s: TcpState): (i: nat)
    ensures i < |States| && States[i] == s
  {
    match s
    case Closed => 0
    case Listen => 1
    case SynSent => 2
    case SynReceived => 3
    case Established => 4
    case FinWait1 => 5
    case FinWait2 => 6
    case CloseWait => 7
    case LastAck => 8
    case Closing => 9
    case TimeWait => 10
  }

  lemma StatesAreTheElevenStates()
    ensures |States| == 11
    ensures forall i, j :: 0 <= i < j < |States| ==> States[i] != States[j]
    ensures forall s: TcpState :: s in States
  {
    forall s: TcpState ensures s in States {
      assert States[StateIndex(s)] == s;
    }
  }

  lemma TableShape()
    ensures |Transitions| == 19
    ensures forall k :: 0 <= k < |Transitions| ==>
      Transitions[k].from in States && Transitions[k].to in States
    ensures forall k :: 0 <= k < |Transitions| ==> Transitions[k].from != Transitions[k].to
    ensures forall i, j :: 0 <= i < j < |Transitions| ==> Transitions[i] != Transitions[j]
  {
    StatesAreTheElevenStates();
    RowsAreDistinct();
  }

  /** No two rows join the same pair of states, so no row is listed twice. */
  lemma RowsAreDistinct()
    ensures forall i, j :: 0 <= i < j < |Transitions| ==>
      (Transitions[i].from, Transitions[i].to) != (Transitions[j].from, Transitions[j].to)
  {
  }

  lemma TimeWaitHasOneOutgoingRow()
    ensures GetNextStates(TimeWait) == [Transitions[18]]
    ensures |GetNextStates(TimeWait)| == 1 && GetNextStates(TimeWait)[0].to == Closed
  {
    SelectSkips(Transitions, Source, TimeWait, 0, 18);
  }

  lemma FinWait1HasThreeOutgoingRows()
    ensures GetNextStates(FinWait1) == [Transitions[11], Transitions[12], Transitions[13]]
    ensures |GetNextStates(FinWait1)| == 3
    ensures GetNextStates(FinWait1)[0].to == FinWait2
    ensures GetNextStates(FinWait1)[1].to == Closing
    ensures GetNextStates(FinWait1)[2].to == TimeWait
  {
    FinWait1RowsSoFar();
    SelectSkips(Transitions, Source, FinWait1, 14, 19);
  }

  /** The first fourteen rows hold the three FIN_WAIT_1 rows, at 11, 12 and 13. */
  lemma FinWait1RowsSoFar()
    ensures Select(Transitions, Source, FinWait1, 14) == [Transitions[11], Transitions[12], Transitions[13]]
  {
    var t := Transitions;
    SelectSkips(t, Source, FinWait1, 0, 11);
    SelectStep(t, Source, FinWait1, 11);
    SelectStep(t, Source, FinWait1, 12);
    SelectStep(t, Source, FinWait1, 13);
  }

  /** One more row extends the selection by that row when it matches, and not at all
      otherwise. */
  lemma SelectStep(rows: seq<Transition>, e: Endpoint, s: TcpState, n: nat)
    requires n < |rows|
    ensures EndOf(rows[n], e) == s ==> Select(rows, e, s, n + 1) == Select(rows, e, s, n) + [rows[n]]
    ensures EndOf(rows[n], e) != s ==> Select(rows, e, s, n + 1) == Select(rows, e, s, n)
  {
  }
}
