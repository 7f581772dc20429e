/** The socket's routing table and the background task that routes arriving datagrams. */
module Routing {
  import opened Words
  import opened Packets
  import opened Codec

  type Key = (u16, SocketAddr)

  /** A stream's mailbox: `open` until the stream that holds the receiving half is dropped.
      `registered` if it was made for a connection this side opened, by `register_connection`, and
      not by `insert_connection` for one it accepted. `history` is everything ever put in. `born`
      and `died` locate its lifetime among the arrivals. */
  datatype Mailbox = Mailbox(key: Key, registered: bool, open: bool, history: seq<Packet>, born: nat, died: nat)

  /** The connection ID that the stream of a mailbox sends under. */
  function SendId(box: Mailbox): u16 {
    if box.registered then WrappingAdd(box.key.0, 1) else WrappingSub(box.key.0, 1)
  }

  /** `table` maps a connection ID and an address to a mailbox. `syns` is everything ever put in
      the SYN queue. `arrivals` records every valid packet other than a SYN that was read from
      the socket, whether or not it found a mailbox. */
  datatype Router = Router(
    table: map<Key, nat>,
    boxes: seq<Mailbox>,
    syns: seq<(Packet, SocketAddr)>,
    arrivals: seq<(Packet, SocketAddr)>,
    stopped: bool)

  function AddBox(r: Router, key: Key, registered: bool): Router {
    r.(table := r.table[key := |r.boxes|],
       boxes := r.boxes + [Mailbox(key, registered, true, [], |r.arrivals|, |r.arrivals|)])
  }

  /** The first of the drawn IDs that is vacant. */
  function FirstVacant(table: map<Key, nat>, remoteAddr: SocketAddr, draws: seq<u16>): Option<u16> {
    if draws == [] then None
    else if (draws[0], remoteAddr) in table then FirstVacant(table, remoteAddr, draws[1..])
    else Some(draws[0])
  }

  /** Register under the first vacant one of the IDs drawn; with none vacant, keep on drawing. */
  function Register(r: Router, remoteAddr: SocketAddr, draws: seq<u16>): Router {
    match FirstVacant(r.table, remoteAddr, draws)
    case None => r
    case Some(id) => AddBox(r, (id, remoteAddr), true)
  }

  function Insert(r: Router, key: Key): Router {
    if key in r.table then r else AddBox(r, key, false)
  }

  function DropStream(r: Router, m: nat): Router {
    if m < |r.boxes| && r.boxes[m].open then
      r.(boxes := r.boxes[m := r.boxes[m].(open := false, died := |r.arrivals|)])
    else r
  }

  /** At most a full receive buffer of a datagram is read. */
  function Received(datagram: Bytes): Bytes {
    if |datagram| <= MAX_DATAGRAM_SIZE then datagram else datagram[..MAX_DATAGRAM_SIZE]
  }

  /** What the UDP socket answers when asked for a datagram. `socketGone` says that the µTP socket
      has been dropped by the time the datagram is routed. */
  datatype RecvResult = Arrived(datagram: Bytes, from: SocketAddr, socketGone: bool) | RecvErr | ReadyErr

  function RoutePacket(r: Router, p: Packet, from: SocketAddr): Router {
    var key := (p.connectionId, from);
    var r1 := r.(arrivals := r.arrivals + [(p, from)]);
    if key !in r.table then r1
    else
      var m := r.table[key];
      if m < |r.boxes| && r.boxes[m].open then
        r1.(boxes := r.boxes[m := r.boxes[m].(history := r.boxes[m].history + [p])])
      else
        r1.(table := r.table - {key})
  }

  function Dispatch(r: Router, p: Packet, from: SocketAddr): Router {
    if p.packetType == Syn then r.(syns := r.syns + [(p, from)]) else RoutePacket(r, p, from)
  }

  function Receive(r: Router, result: RecvResult): Router {
    match result
    case RecvErr => r
    case ReadyErr => r.(stopped := true)
    case Arrived(datagram, from, socketGone) =>
      match ParsePacket(Received(datagram))
      case Err(_) => r
      case Ok(p) => if socketGone then r.(stopped := true) else Dispatch(r, p, from)
  }

  /** One poll of the receiving task: it goes on until the socket has nothing ready. */
  function ReceiveAll(r: Router, results: seq<RecvResult>): Router
    decreases |results|
  {
    if results == [] || r.stopped then r else ReceiveAll(Receive(r, results[0]), results[1..])
  }

  class UtpSocket {
    var routingTable: map<Key, nat>
    var boxes: seq<Mailbox>
    var syns: seq<(Packet, SocketAddr)>
    var synsTaken: nat
    var stopped: bool
    var arrivals: seq<(Packet, SocketAddr)>
    /** The channel to the sending task, and whether that task is still there. */
    var outgoing: seq<(Packet, SocketAddr)>
    var senderAlive: bool

    function Contents(): Router
      reads this
    {
      Router(routingTable, boxes, syns, arrivals, stopped)
    }

    /** Every entry leads to a mailbox. */
    ghost predicate Valid()
      reads this
    {
      && synsTaken <= |syns|
      && forall key <- routingTable :: routingTable[key] < |boxes|
    }

    constructor ()
      ensures Valid() && Contents() == Router(map[], [], [], [], false)
      ensures outgoing == [] && senderAlive && synsTaken == 0
    {
      routingTable, boxes, syns, synsTaken, stopped, arrivals := map[], [], [], 0, false, [];
      outgoing, senderAlive := [], true;
    }

    method SendTo(packet: Packet, remoteAddr: SocketAddr) returns (ok: bool)
      modifies this`outgoing
      ensures ok == senderAlive
      ensures outgoing == if ok then old(outgoing) + [(packet, remoteAddr)] else old(outgoing)
    {
      if senderAlive {
        outgoing := outgoing + [(packet, remoteAddr)];
      }
      ok := senderAlive;
    }

    /** `register_connection`, with the random draws as input. */
    method RegisterConnection(remoteAddr: SocketAddr, draws: seq<u16>) returns (id: Option<u16>)
      requires Valid()
      modifies this`routingTable, this`boxes
      ensures Valid()
      ensures Contents() == Register(old(Contents()), remoteAddr, draws)
      ensures id == FirstVacant(old(routingTable), remoteAddr, draws)
    {
      var i := 0;
      while i < |draws|
        invariant 0 <= i <= |draws|
        invariant routingTable == old(routingTable) && boxes == old(boxes)
        invariant FirstVacant(routingTable, remoteAddr, draws[i..]) == FirstVacant(routingTable, remoteAddr, draws)
      {
        var connectionId := draws[i];
        assert draws[i..][1..] == draws[i + 1..];
        if (connectionId, remoteAddr) !in routingTable {
          routingTable := routingTable[(connectionId, remoteAddr) := |boxes|];
          boxes := boxes + [Mailbox((connectionId, remoteAddr), true, true, [], |arrivals|, |arrivals|)];
          return Some(connectionId);
        }
        i := i + 1;
      }
      id := None;
    }

    /** `insert_connection`. */
    method InsertConnection(connectionId: u16, remoteAddr: SocketAddr) returns (ok: bool)
      requires Valid()
      modifies this`routingTable, this`boxes
      ensures Valid()
      ensures ok == ((connectionId, remoteAddr) !in old(routingTable))
      ensures Contents() == Insert(old(Contents()), (connectionId, remoteAddr))
    {
      if (connectionId, remoteAddr) in routingTable {
        return false;
      }
      routingTable := routingTable[(connectionId, remoteAddr) := |boxes|];
      boxes := boxes + [Mailbox((connectionId, remoteAddr), false, true, [], |arrivals|, |arrivals|)];
      ok := true;
    }

    /** The stream that holds the receiving half of a mailbox goes away. */
    method DropReceiver(m: nat)
      requires Valid()
      modifies this`boxes
      ensures Valid()
      ensures Contents() == DropStream(old(Contents()), m)
    {
      if m < |boxes| && boxes[m].open {
        boxes := boxes[m := boxes[m].(open := false, died := |arrivals|)];
      }
    }

    /** `get_syn`: None while no SYN is waiting. */
    method GetSyn() returns (r: Option<(Packet, SocketAddr)>)
      requires Valid()
      modifies this`synsTaken
      ensures Valid()
      ensures if old(synsTaken) < |syns|
              then r == Some(syns[old(synsTaken)]) && synsTaken == old(synsTaken) + 1
              else r == None && synsTaken == old(synsTaken)
    {
      if synsTaken < |syns| {
        r := Some(syns[synsTaken]);
        synsTaken := synsTaken + 1;
      } else {
        r := None;
      }
    }

    /** One datagram through the loop of `PacketReceiver::poll`. */
    method RouteDatagram(datagram: Bytes, from: SocketAddr, socketGone: bool)
      requires Valid()
      modifies this`routingTable, this`boxes, this`syns, this`arrivals, this`stopped
      ensures Valid()
      ensures Contents() == Receive(old(Contents()), Arrived(datagram, from, socketGone))
    {
      var buf := if |datagram| <= MAX_DATAGRAM_SIZE then datagram else datagram[..MAX_DATAGRAM_SIZE];
      var parsed := Parse(buf);
      if parsed.Err? {
        return;
      }
      var packet := parsed.value;
      if socketGone {
        stopped := true;
      } else if packet.packetType == Syn {
        syns := syns + [(packet, from)];
      } else {
        PutInMailbox(packet, from);
      }
    }

    /** The `remove_if` on the routing table: try to send, and remove the entry on failure. */
    method PutInMailbox(packet: Packet, from: SocketAddr)
      requires Valid()
      modifies this`routingTable, this`boxes, this`arrivals
      ensures Valid()
      ensures Contents() == RoutePacket(old(Contents()), packet, from)
    {
      var key := (packet.connectionId, from);
      arrivals := arrivals + [(packet, from)];
      if key in routingTable {
        var m := routingTable[key];
        if boxes[m].open {
          boxes := boxes[m := boxes[m].(history := boxes[m].history + [packet])];
        } else {
          routingTable := routingTable - {key};
        }
      }
    }

    /** `PacketReceiver::poll`, given what the UDP socket answers in turn. */
    method PollReceiver(results: seq<RecvResult>)
      requires Valid()
      modifies this`routingTable, this`boxes, this`syns, this`arrivals, this`stopped
      ensures Valid()
      ensures Contents() == ReceiveAll(old(Contents()), results)
    {
      var i := 0;
      while i < |results| && !stopped
        invariant 0 <= i <= |results| && Valid()
        invariant ReceiveAll(Contents(), results[i..]) == ReceiveAll(old(Contents()), results)
      {
        assert results[i..][1..] == results[i + 1..];
        match results[i] {
          case Arrived(datagram, from, socketGone) => RouteDatagram(datagram, from, socketGone);
          case RecvErr =>
          case ReadyErr => stopped := true;
        }
        i := i + 1;
      }
    }
  }

  // ---------------------------------------------------------------------------------------
  // Isolation over whole runs
  // ---------------------------------------------------------------------------------------

  datatype RouterEvent =
    | Registered(remoteAddr: SocketAddr, draws: seq<u16>)
    | Inserted(key: Key)
    | StreamDropped(mailbox: nat)
    | Polled(results: seq<RecvResult>)

  function RouterStep(r: Router, ev: RouterEvent): Router {
    match ev
    case Registered(addr, draws) => Register(r, addr, draws)
    case Inserted(key) => Insert(r, key)
    case StreamDropped(m) => DropStream(r, m)
    case Polled(results) => ReceiveAll(r, results)
  }

  function RouterAfter(r: Router, evs: seq<RouterEvent>): Router
    decreases |evs|
  {
    if evs == [] then r else RouterAfter(RouterStep(r, evs[0]), evs[1..])
  }

  /** The arrivals addressed to `key`, in order. */
  function Matching(arrivals: seq<(Packet, SocketAddr)>, key: Key): seq<Packet> {
    if arrivals == [] then []
    else
      var last := arrivals[|arrivals| - 1];
      Matching(arrivals[..|arrivals| - 1], key)
      + (if (last.0.connectionId, last.1) == key then [last.0] else [])
  }

  /** Where the lifetime of a mailbox ends among the arrivals so far. */
  function End(box: Mailbox, arrivals: nat): nat {
    if box.open then arrivals else box.died
  }

  /** A mailbox holds what was addressed to it in its lifetime: all of it, nothing else, in order. */
  ghost predicate Exact(box: Mailbox, arrivals: seq<(Packet, SocketAddr)>) {
    && box.born <= End(box, |arrivals|) <= |arrivals|
    && box.history == Matching(arrivals[box.born..End(box, |arrivals|)], box.key)
  }

  ghost predicate AllExact(r: Router) {
    forall m | 0 <= m < |r.boxes| :: Exact(r.boxes[m], r.arrivals)
  }

  /** A live mailbox is reached through its key. */
  ghost predicate LiveReachable(r: Router) {
    forall m | 0 <= m < |r.boxes| && r.boxes[m].open ::
      r.boxes[m].key in r.table && r.table[r.boxes[m].key] == m
  }

  ghost predicate TableSound(r: Router) {
    forall key <- r.table :: r.table[key] < |r.boxes| && r.boxes[r.table[key]].key == key
  }

  /** Two mailboxes for the same key never live at the same time. */
  ghost predicate Exclusive(boxes: seq<Mailbox>) {
    forall m, k | 0 <= m < k < |boxes| && boxes[m].key == boxes[k].key ::
      !boxes[m].open && boxes[m].died <= boxes[k].born
  }

  ghost predicate Isolated(r: Router) {
    AllExact(r) && LiveReachable(r) && TableSound(r) && Exclusive(r.boxes)
  }

  lemma AddBoxIsolated(r: Router, key: Key, registered: bool)
    requires Isolated(r) && key !in r.table
    ensures Isolated(AddBox(r, key, registered))
  {
    var r' := AddBox(r, key, registered);
    var n := |r.boxes|;
    forall m | 0 <= m <= n
      ensures Exact(r'.boxes[m], r'.arrivals)
    {
      if m < n {
        assert Exact(r.boxes[m], r.arrivals);
      } else {
        assert r.arrivals[|r.arrivals|..|r.arrivals|] == [];
      }
    }
    forall m, k | 0 <= m < k < |r'.boxes| && r'.boxes[m].key == r'.boxes[k].key
      ensures !r'.boxes[m].open && r'.boxes[m].died <= r'.boxes[k].born
    {
      if k == n {
        assert Exact(r.boxes[m], r.arrivals);
      }
    }
  }

  /** The `i`-th ID drawn is vacant, and those drawn before it are not. */
  predicate VacantAt(table: map<Key, nat>, remoteAddr: SocketAddr, draws: seq<u16>, i: nat) {
    && i < |draws| && (draws[i], remoteAddr) !in table
    && forall j | 0 <= j < i :: (draws[j], remoteAddr) in table
  }

  lemma {:induction false} VacantIsVacant(table: map<Key, nat>, remoteAddr: SocketAddr, draws: seq<u16>)
    ensures match FirstVacant(table, remoteAddr, draws)
            case None => forall id <- draws :: (id, remoteAddr) in table
            case Some(id) => exists i: nat :: VacantAt(table, remoteAddr, draws, i) && draws[i] == id
  {
    if draws != [] {
      if (draws[0], remoteAddr) in table {
        VacantIsVacant(table, remoteAddr, draws[1..]);
        var rest := FirstVacant(table, remoteAddr, draws[1..]);
        if rest.Some? {
          var i: nat :| VacantAt(table, remoteAddr, draws[1..], i) && draws[1..][i] == rest.value;
          assert forall j | 1 <= j < i + 1 :: draws[j] == draws[1..][j - 1];
          assert VacantAt(table, remoteAddr, draws, i + 1);
        }
      } else {
        assert VacantAt(table, remoteAddr, draws, 0);
      }
    }
  }

  lemma DropIsolated(r: Router, m: nat)
    requires Isolated(r)
    ensures Isolated(DropStream(r, m))
  {
    var r' := DropStream(r, m);
    forall k | 0 <= k < |r'.boxes|
      ensures Exact(r'.boxes[k], r'.arrivals)
    {
      assert Exact(r.boxes[k], r.arrivals);
    }
    forall i, k | 0 <= i < k < |r'.boxes| && r'.boxes[i].key == r'.boxes[k].key
      ensures !r'.boxes[i].open && r'.boxes[i].died <= r'.boxes[k].born
    {
      assert !r.boxes[i].open && r.boxes[i].died <= r.boxes[k].born;
    }
  }

  /** One more arrival extends the mail of an open mailbox exactly if it is addressed to it. */
  lemma MatchingOneMore(arrivals: seq<(Packet, SocketAddr)>, p: Packet, from: SocketAddr, born: nat, key: Key)
    requires born <= |arrivals|
    ensures Matching((arrivals + [(p, from)])[born..|arrivals| + 1], key)
         == Matching(arrivals[born..|arrivals|], key) + (if (p.connectionId, from) == key then [p] else [])
  {
    var now := (arrivals + [(p, from)])[born..|arrivals| + 1];
    assert now[..|now| - 1] == arrivals[born..|arrivals|];
  }

  /** What one more arrival does to a mailbox. */
  lemma BoxExact(box: Mailbox, arrivals: seq<(Packet, SocketAddr)>, p: Packet, from: SocketAddr)
    requires Exact(box, arrivals)
    ensures var box' := if box.open && box.key == (p.connectionId, from)
                        then box.(history := box.history + [p]) else box;
            Exact(box', arrivals + [(p, from)])
  {
    if box.open {
      MatchingOneMore(arrivals, p, from, box.born, box.key);
    } else {
      assert (arrivals + [(p, from)])[box.born..box.died] == arrivals[box.born..box.died];
    }
  }

  /** An arrival is put in the open mailboxes for its key, and in no other. */
  lemma RoutedByKey(r: Router, p: Packet, from: SocketAddr, m: nat)
    requires LiveReachable(r) && TableSound(r) && m < |r.boxes|
    ensures var r' := RoutePacket(r, p, from);
            && |r'.boxes| == |r.boxes|
            && r'.boxes[m] == if r.boxes[m].open && r.boxes[m].key == (p.connectionId, from)
                              then r.boxes[m].(history := r.boxes[m].history + [p])
                              else r.boxes[m]
  {
  }

  lemma RouteKeepsTable(r: Router, p: Packet, from: SocketAddr)
    requires LiveReachable(r) && TableSound(r)
    ensures LiveReachable(RoutePacket(r, p, from)) && TableSound(RoutePacket(r, p, from))
  {
  }

  lemma HistoryKeepsExclusive(boxes: seq<Mailbox>, boxes': seq<Mailbox>)
    requires Exclusive(boxes) && |boxes'| == |boxes|
    requires forall m | 0 <= m < |boxes| :: boxes'[m] == boxes[m].(history := boxes'[m].history)
    ensures Exclusive(boxes')
  {
  }

  lemma RouteIsolated(r: Router, p: Packet, from: SocketAddr)
    requires Isolated(r)
    ensures Isolated(RoutePacket(r, p, from))
  {
    var r' := RoutePacket(r, p, from);
    forall m | 0 <= m < |r.boxes|
      ensures Exact(r'.boxes[m], r'.arrivals)
      ensures r'.boxes[m] == r.boxes[m].(history := r'.boxes[m].history)
    {
      BoxExact(r.boxes[m], r.arrivals, p, from);
      RoutedByKey(r, p, from, m);
    }
    RouteKeepsTable(r, p, from);
    HistoryKeepsExclusive(r.boxes, r'.boxes);
  }

  lemma ReceiveIsolated(r: Router, result: RecvResult)
    requires Isolated(r)
    ensures Isolated(Receive(r, result))
  {
    if result.Arrived? {
      var parsed := ParsePacket(Received(result.datagram));
      if parsed.Ok? && !result.socketGone && parsed.value.packetType != Syn {
        RouteIsolated(r, parsed.value, result.from);
      }
    }
  }

  lemma {:induction false} ReceiveAllIsolated(r: Router, results: seq<RecvResult>)
    requires Isolated(r)
    ensures Isolated(ReceiveAll(r, results))
    decreases |results|
  {
    if results != [] && !r.stopped {
      ReceiveIsolated(r, results[0]);
      ReceiveAllIsolated(Receive(r, results[0]), results[1..]);
    }
  }

  lemma StepIsolated(r: Router, ev: RouterEvent)
    requires Isolated(r)
    ensures Isolated(RouterStep(r, ev))
  {
    match ev
    case Registered(addr, draws) =>
      VacantIsVacant(r.table, addr, draws);
      if FirstVacant(r.table, addr, draws).Some? {
        AddBoxIsolated(r, (FirstVacant(r.table, addr, draws).value, addr), true);
      }
    case Inserted(key) =>
      if key !in r.table {
        AddBoxIsolated(r, key, false);
      }
    case StreamDropped(m) => DropIsolated(r, m);
    case Polled(results) => ReceiveAllIsolated(r, results);
  }

  /** Over every interleaving of registrations, insertions, stream drops and arrivals: each
      mailbox has received exactly the valid packets addressed to its key in its lifetime, in
      order of arrival; a live entry is never overwritten or removed; and no two mailboxes for
      the same key live at the same time, so that no packet reaches two. */
  lemma {:induction false} RoutingIsolation(r: Router, evs: seq<RouterEvent>)
    requires Isolated(r)
    ensures Isolated(RouterAfter(r, evs))
    decreases |evs|
  {
    if evs != [] {
      StepIsolated(r, evs[0]);
      RoutingIsolation(RouterStep(r, evs[0]), evs[1..]);
    }
  }

  lemma ReceiveKeepsBox(r: Router, result: RecvResult, m: nat)
    requires Isolated(r) && m < |r.boxes|
    ensures var r' := Receive(r, result);
            && |r'.boxes| == |r.boxes|
            && r'.boxes[m].open == r.boxes[m].open && r'.boxes[m].key == r.boxes[m].key
  {
    if result.Arrived? {
      var parsed := ParsePacket(Received(result.datagram));
      if parsed.Ok? {
        RoutedByKey(r, parsed.value, result.from, m);
      }
    }
  }

  lemma {:induction false} ReceiveAllKeepsBox(r: Router, results: seq<RecvResult>, m: nat)
    requires Isolated(r) && m < |r.boxes|
    ensures var r' := ReceiveAll(r, results);
            && |r'.boxes| == |r.boxes|
            && r'.boxes[m].open == r.boxes[m].open && r'.boxes[m].key == r.boxes[m].key
    decreases |results|
  {
    if results != [] && !r.stopped {
      ReceiveIsolated(r, results[0]);
      ReceiveKeepsBox(r, results[0], m);
      ReceiveAllKeepsBox(Receive(r, results[0]), results[1..], m);
    }
  }

  /** The entry under `key` leads to a mailbox whose stream is gone. */
  predicate Stale(r: Router, key: Key) {
    key in r.table && r.table[key] < |r.boxes| && !r.boxes[r.table[key]].open
  }

  /** An arrival removes the entry for its key if that is stale, and no other entry. */
  lemma StaleRemoved(r: Router, p: Packet, from: SocketAddr, key: Key)
    requires TableSound(r)
    ensures var r' := RoutePacket(r, p, from);
            && (key in r'.table <==> key in r.table && !(Stale(r, key) && key == (p.connectionId, from)))
            && (key in r'.table ==> r'.table[key] == r.table[key])
  {
  }

  /** Only the first 1472 bytes of a datagram are read. */
  lemma OnlyWhatFits(datagram: Bytes, more: Bytes)
    ensures |datagram| >= 1472 ==> Received(datagram + more) == datagram[..1472]
    ensures |datagram| <= 1472 ==> Received(datagram) == datagram
  {
    if |datagram| >= 1472 {
      assert (datagram + more)[..1472] == datagram[..1472];
      assert |datagram| == 1472 && more == [] ==> datagram + more == datagram[..1472];
    }
  }

  /** Only the drop of its own stream ends a live mailbox: whatever else happens, it stays open
      and its table entry stays in place. */
  lemma LiveStaysLive(r: Router, ev: RouterEvent, m: nat)
    requires Isolated(r) && m < |r.boxes| && r.boxes[m].open && ev != StreamDropped(m)
    ensures var r' := RouterStep(r, ev);
            && m < |r'.boxes| && r'.boxes[m].open
            && r'.boxes[m].key == r.boxes[m].key
            && r'.boxes[m].key in r'.table && r'.table[r'.boxes[m].key] == m
  {
    StepIsolated(r, ev);
    if ev.Polled? {
      ReceiveAllKeepsBox(r, ev.results, m);
    }
  }

  /** What an answer of the socket comes to: the task ends, a valid packet has arrived, or nothing. */
  datatype Reading = TaskEnds | Valid(packet: Packet, from: SocketAddr) | Nothing

  function ToReading(result: RecvResult): Reading {
    match result
    case RecvErr => Nothing
    case ReadyErr => TaskEnds
    case Arrived(datagram, from, socketGone) =>
      match ParsePacket(Received(datagram))
      case Err(_) => Nothing
      case Ok(p) => if socketGone then TaskEnds else Valid(p, from)
  }

  function ToReadings(results: seq<RecvResult>): seq<Reading> {
    seq(|results|, i requires 0 <= i < |results| => ToReading(results[i]))
  }

  function Pick(reading: Reading, syn: bool): seq<(Packet, SocketAddr)> {
    if reading.Valid? && (reading.packet.packetType == Syn) == syn then [(reading.packet, reading.from)] else []
  }

  /** The valid packets up to the end of the task: the SYNs, or the others. */
  function Select(readings: seq<Reading>, syn: bool): seq<(Packet, SocketAddr)> {
    if readings == [] || readings[0] == TaskEnds then []
    else Pick(readings[0], syn) + Select(readings[1..], syn)
  }

  function Recorded(r: Router, syn: bool): seq<(Packet, SocketAddr)> {
    if syn then r.syns else r.arrivals
  }

  function Act(r: Router, reading: Reading): Router {
    match reading
    case TaskEnds => r.(stopped := true)
    case Valid(p, from) => Dispatch(r, p, from)
    case Nothing => r
  }

  lemma ReceiveActs(r: Router, result: RecvResult)
    ensures Receive(r, result) == Act(r, ToReading(result))
  {
  }

  lemma ActRecords(r: Router, reading: Reading, syn: bool)
    requires reading != TaskEnds
    ensures Recorded(Act(r, reading), syn) == Recorded(r, syn) + Pick(reading, syn)
    ensures Act(r, reading).stopped == r.stopped
  {
    if Pick(reading, syn) == [] {
      assert Recorded(r, syn) + [] == Recorded(r, syn);
    }
  }

  /** A poll misses nothing: every valid SYN goes to the SYN queue and every other valid packet is
      looked up in the table, in order of arrival, until the task ends. */
  lemma {:induction false} PollMissesNothing(r: Router, results: seq<RecvResult>, syn: bool)
    requires !r.stopped
    ensures Recorded(ReceiveAll(r, results), syn) == Recorded(r, syn) + Select(ToReadings(results), syn)
    decreases |results|
  {
    if results != [] {
      var readings := ToReadings(results);
      assert readings[1..] == ToReadings(results[1..]);
      ReceiveActs(r, results[0]);
      if readings[0] != TaskEnds {
        ActRecords(r, readings[0], syn);
        PollMissesNothing(Act(r, readings[0]), results[1..], syn);
        Associate(Recorded(r, syn), Pick(readings[0], syn), Select(readings[1..], syn));
      }
    }
  }

  lemma NewRouterIsolated()
    ensures Isolated(Router(map[], [], [], [], false))
  {
  }

  /** The `t`-th arrival is among the mail of mailbox `m`. */
  predicate InLifetime(r: Router, t: nat, m: nat)
    requires t < |r.arrivals| && m < |r.boxes|
  {
    && r.boxes[m].born <= t < End(r.boxes[m], |r.arrivals|)
    && r.boxes[m].key == (r.arrivals[t].0.connectionId, r.arrivals[t].1)
  }

  /** In no run does a packet get into two mailboxes. */
  lemma NoPacketReachesTwo(evs: seq<RouterEvent>, t: nat, m: nat, k: nat)
    requires var r := RouterAfter(Router(map[], [], [], [], false), evs);
             t < |r.arrivals| && m < k < |r.boxes|
    ensures var r := RouterAfter(Router(map[], [], [], [], false), evs);
            !(InLifetime(r, t, m) && InLifetime(r, t, k))
  {
    NewRouterIsolated();
    RoutingIsolation(Router(map[], [], [], [], false), evs);
  }
}
