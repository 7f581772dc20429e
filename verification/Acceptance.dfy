/** Which SYN an `accept` takes, over whole runs, and what connection setup puts on the wire. */
module Acceptance {
  import opened Words
  import opened Packets
  import opened Codec
  import opened Layout
  import opened Streams
  import opened Handshake
  import opened Routing
  import opened Listener

  // ---------------------------------------------------------------------------------------
  // One call
  // ---------------------------------------------------------------------------------------

  /** The stream that a SYN from `addr` opens: it receives on the ID after that of the SYN, sends under that
      of the SYN, to its sender, and has the SYN's number as the last one assembled. */
  predicate Opens(st: StreamState, syn: Packet, addr: SocketAddr) {
    && st.connectionIdRecv == (if syn.connectionId == 65535 then 0 else syn.connectionId + 1)
    && st.connectionIdSend == syn.connectionId
    && st.remoteAddr == addr
    && st.ackNumber == syn.seqNumber
  }

  /** Of the SYNs that wait, an accept takes the first and leaves all others in their order. It panics if an
      entry for that SYN's connection is there already, and fails if the sending task is gone. */
  lemma AcceptTakesOne(r: Router, synsTaken: nat, alive: bool, random: u16)
    requires synsTaken <= |r.syns|
    ensures var s, waiting := AcceptFrom(r, synsTaken, alive, random), r.syns[synsTaken..];
            && s.router.syns == r.syns && s.synsTaken <= |r.syns|
            && if waiting == [] then
                 s.result == AcceptWaiting && r.syns[s.synsTaken..] == [] && s.router == r && s.sent == []
               else
                 var (syn, addr) := waiting[0];
                 && r.syns[s.synsTaken..] == waiting[1..]
                 && (if (WrappingAdd(syn.connectionId, 1), addr) in r.table then s.result == AcceptPanic
                     else if !alive then s.result == AcceptError
                     else s.result.AcceptOk? && Opens(s.result.st, syn, addr))
                 && s.sent == (if s.result.AcceptOk? then [(s.result.st.outgoing[0], addr)] else [])
  {
  }

  /** A new mailbox, for a connection that this side opens, has been routed under `key`. */
  predicate ConnectsUnder(r: Router, s: Setup<ConnectResult>, alive: bool, key: Key) {
    && s.router.table == r.table[key := |r.boxes|]
    && |s.router.boxes| == |r.boxes| + 1 && s.router.boxes[..|r.boxes|] == r.boxes
    && s.result == (if alive then SynSent(key.0) else ConnectError)
    && s.sent == (if alive then [(SynPacket(key.0), key.1)] else [])
    && var box := s.router.boxes[|r.boxes|];
       box.key == key && box.registered && box.open == alive && box.history == []
  }

  /** A connect takes the first of the IDs drawn that is vacant. With the sending task there, its mailbox is open
      and the SYN on its way; without it, the mailbox is given up again, though the entry stays. */
  lemma ConnectTakesFirst(r: Router, synsTaken: nat, alive: bool, remoteAddr: SocketAddr, draws: seq<u16>)
    ensures var s := ConnectFrom(r, synsTaken, alive, remoteAddr, draws);
            && s.synsTaken == synsTaken && s.router.syns == r.syns && s.router.arrivals == r.arrivals
            && if forall id <- draws :: (id, remoteAddr) in r.table then
                 s.result == StillDrawing && s.router == r && s.sent == []
               else
                 exists i: nat :: VacantAt(r.table, remoteAddr, draws, i)
                                  && ConnectsUnder(r, s, alive, (draws[i], remoteAddr))
  {
    VacantIsVacant(r.table, remoteAddr, draws);
    var vacant := FirstVacant(r.table, remoteAddr, draws);
    if vacant.Some? {
      var i: nat :| VacantAt(r.table, remoteAddr, draws, i) && draws[i] == vacant.value;
      assert ConnectsUnder(r, ConnectFrom(r, synsTaken, alive, remoteAddr, draws), alive, (draws[i], remoteAddr));
    }
  }

  // ---------------------------------------------------------------------------------------
  // Runs
  // ---------------------------------------------------------------------------------------

  /** A socket's routing state, the SYNs taken so far, and what the accepts that found one came to. */
  datatype Acceptor = Acceptor(router: Router, synsTaken: nat, results: seq<AcceptResult>)

  datatype AcceptorEvent =
    | AcceptCalled(alive: bool, random: u16)
    | ConnectCalled(alive: bool, remoteAddr: SocketAddr, draws: seq<u16>)
    | Else(ev: RouterEvent)

  function AcceptorStep(a: Acceptor, ev: AcceptorEvent): Acceptor {
    match ev
    case AcceptCalled(alive, random) =>
      var s := AcceptFrom(a.router, a.synsTaken, alive, random);
      Acceptor(s.router, s.synsTaken, a.results + if s.result == AcceptWaiting then [] else [s.result])
    case ConnectCalled(alive, remoteAddr, draws) =>
      var s := ConnectFrom(a.router, a.synsTaken, alive, remoteAddr, draws);
      a.(router := s.router, synsTaken := s.synsTaken)
    case Else(rev) => a.(router := RouterStep(a.router, rev))
  }

  function AcceptorAfter(a: Acceptor, evs: seq<AcceptorEvent>): Acceptor
    decreases |evs|
  {
    if evs == [] then a else AcceptorAfter(AcceptorStep(a, evs[0]), evs[1..])
  }

  predicate About(result: AcceptResult, syn: (Packet, SocketAddr)) {
    result != AcceptWaiting && (result.AcceptOk? ==> Opens(result.st, syn.0, syn.1))
  }

  /** The `k`-th accept that found a SYN took the `k`-th that ever came. */
  ghost predicate InOrder(a: Acceptor) {
    && |a.results| == a.synsTaken <= |a.router.syns|
    && forall k | 0 <= k < |a.results| :: About(a.results[k], a.router.syns[k])
  }

  lemma ActKeepsSyns(r: Router, reading: Reading)
    ensures r.syns <= Act(r, reading).syns
  {
  }

  lemma {:induction false} ReceiveAllKeepsSyns(r: Router, results: seq<RecvResult>)
    ensures r.syns <= ReceiveAll(r, results).syns
    decreases |results|
  {
    if results != [] && !r.stopped {
      ReceiveActs(r, results[0]);
      ActKeepsSyns(r, ToReading(results[0]));
      ReceiveAllKeepsSyns(Act(r, ToReading(results[0])), results[1..]);
    }
  }

  lemma RouterKeepsSyns(r: Router, ev: RouterEvent)
    ensures r.syns <= RouterStep(r, ev).syns
  {
    if ev.Polled? {
      ReceiveAllKeepsSyns(r, ev.results);
    }
  }

  lemma StepInOrder(a: Acceptor, ev: AcceptorEvent)
    requires InOrder(a)
    ensures InOrder(AcceptorStep(a, ev)) && a.router.syns <= AcceptorStep(a, ev).router.syns
    ensures a.results <= AcceptorStep(a, ev).results
  {
    match ev
    case AcceptCalled(alive, random) =>
      var a' := AcceptorStep(a, ev);
      AcceptTakesOne(a.router, a.synsTaken, alive, random);
      forall k | 0 <= k < |a'.results|
        ensures About(a'.results[k], a'.router.syns[k])
      {
        if k < |a.results| {
          assert About(a.results[k], a.router.syns[k]);
        }
      }
    case ConnectCalled(_, _, _) =>
    case Else(rev) => RouterKeepsSyns(a.router, rev);
  }

  /** Over every interleaving of accepts, connects, arrivals and drops: the `k`-th accept that finds a SYN takes
      the `k`-th SYN that arrived, for its ID and address; so each is taken once, and none is passed over. */
  lemma {:induction false} AcceptsInOrder(a: Acceptor, evs: seq<AcceptorEvent>)
    requires InOrder(a)
    ensures InOrder(AcceptorAfter(a, evs)) && a.router.syns <= AcceptorAfter(a, evs).router.syns
    ensures a.results <= AcceptorAfter(a, evs).results
    decreases |evs|
  {
    if evs != [] {
      StepInOrder(a, evs[0]);
      AcceptsInOrder(AcceptorStep(a, evs[0]), evs[1..]);
    }
  }

  // ---------------------------------------------------------------------------------------
  // On the wire
  // ---------------------------------------------------------------------------------------

  /** The SYN and the SYN-ACK as datagrams: 20 bytes, with the type, the ID and the numbers of the setup. */
  lemma SetupOnWire(id: u16, random: u16)
    ensures var b := Print(SynPacket(id));
            && |b| == 20 && b[0] == 0x41 && b[1] == 0
            && Value(b[2..4]) == id && Value(b[16..18]) == 1 && Value(b[18..20]) == 0
    ensures var b := Print(SynAckPacket(SynPacket(id), random));
            && |b| == 20 && b[0] == 0x21 && b[1] == 0
            && Value(b[2..4]) == id && Value(b[16..18]) == random && Value(b[18..20]) == 1
  {
    PrintLayout(SynPacket(id));
    PrintLayout(SynAckPacket(SynPacket(id), random));
  }
}
