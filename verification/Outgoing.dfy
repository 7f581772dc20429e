/** The background task that empties the socket's outgoing packet channel. */
module Outgoing {
  import opened Words
  import opened Packets
  import opened Codec

  type Item = (Packet, SocketAddr)

  datatype Datagram = Datagram(bytes: Bytes, to: SocketAddr)

  /** What the UDP socket answers to one attempt to send. */
  datatype SendResult = SendOk | SendErr | SendBlocked

  /** `channel` is what the task has not received yet, `closed` whether the sending half is gone,
      `wire` what it has sent so far, `finished` whether it has run to completion. */
  datatype SenderState = SenderState(
    channel: seq<Item>,
    closed: bool,
    buffer: seq<Item>,
    wire: seq<Datagram>,
    finished: bool)

  function ToDatagram(item: Item): Datagram {
    Datagram(Print(item.0), item.1)
  }

  function ToDatagrams(items: seq<Item>): seq<Datagram> {
    seq(|items|, i requires 0 <= i < |items| => ToDatagram(items[i]))
  }

  /** How many packets of a buffer of `n` go out, given the socket's answers in turn. A failed
      attempt is repeated; once the answers run out the socket blocks. */
  function SentCount(n: nat, results: seq<SendResult>): (k: nat)
    ensures k <= n
  {
    if n == 0 || results == [] then 0
    else match results[0]
      case SendOk => 1 + SentCount(n - 1, results[1..])
      case SendErr => SentCount(n, results[1..])
      case SendBlocked => 0
  }

  /** One poll of the task. */
  function PollSender(st: SenderState, socketAlive: bool, results: seq<SendResult>): SenderState {
    if !socketAlive then
      st.(finished := true)
    else
      var st1 := st.(buffer := st.buffer + st.channel, channel := []);
      if st.closed then
        st1.(finished := true)
      else
        var k := SentCount(|st1.buffer|, results);
        st1.(buffer := st1.buffer[k..], wire := st.wire + ToDatagrams(st1.buffer[..k]))
  }

  class PacketSender {
    var outgoingRx: seq<Item>
    var closed: bool
    var outgoingBuffer: seq<Item>
    var wire: seq<Datagram>
    var finished: bool

    function Contents(): SenderState
      reads this
    {
      SenderState(outgoingRx, closed, outgoingBuffer, wire, finished)
    }

    constructor ()
      ensures Contents() == SenderState([], false, [], [], false)
    {
      outgoingRx, closed, outgoingBuffer, wire, finished := [], false, [], [], false;
    }

    /** Fetch as many packets as possible from the channel; true if it has ended. */
    method Fetch() returns (ended: bool)
      modifies this`outgoingRx, this`outgoingBuffer
      ensures Contents() == old(Contents()).(buffer := old(outgoingBuffer) + old(outgoingRx), channel := [])
      ensures ended == closed
    {
      while outgoingRx != []
        invariant outgoingBuffer + outgoingRx == old(outgoingBuffer) + old(outgoingRx)
        decreases |outgoingRx|
      {
        var item := outgoingRx[0];
        outgoingRx := outgoingRx[1..];
        outgoingBuffer := outgoingBuffer + [item];
      }
      ended := closed;
    }

    /** Send out as many packets as possible. */
    method SendBuffered(results: seq<SendResult>)
      modifies this`outgoingBuffer, this`wire
      ensures var k := SentCount(|old(outgoingBuffer)|, results);
              && outgoingBuffer == old(outgoingBuffer)[k..]
              && wire == old(wire) + ToDatagrams(old(outgoingBuffer)[..k])
    {
      ghost var all := outgoingBuffer;
      ghost var sent := 0;
      var attempt := 0;
      while outgoingBuffer != []
        invariant 0 <= attempt <= |results| && 0 <= sent <= |all|
        invariant outgoingBuffer == all[sent..]
        invariant wire == old(wire) + ToDatagrams(all[..sent])
        invariant SentCount(|all|, results) == sent + SentCount(|outgoingBuffer|, results[attempt..])
        decreases |results| - attempt, |outgoingBuffer|
      {
        ghost var before := outgoingBuffer;
        var item := outgoingBuffer[0];
        outgoingBuffer := outgoingBuffer[1..];
        var bytes := Serialize(item.0);
        var result := if attempt < |results| then results[attempt] else SendBlocked;
        if result == SendBlocked {
          outgoingBuffer := [item] + outgoingBuffer;
          assert outgoingBuffer == before;
          break;
        }
        assert results[attempt..][1..] == results[attempt + 1..];
        attempt := attempt + 1;
        if result == SendOk {
          wire := wire + [Datagram(bytes, item.1)];
          assert all[..sent + 1] == all[..sent] + [item];
          sent := sent + 1;
        } else {
          outgoingBuffer := [item] + outgoingBuffer;
          assert outgoingBuffer == before;
        }
      }
      assert sent == SentCount(|all|, results);
    }

    method Poll(socketAlive: bool, results: seq<SendResult>)
      modifies this
      ensures Contents() == PollSender(old(Contents()), socketAlive, results)
    {
      if !socketAlive {
        finished := true;
        return;
      }
      var ended := Fetch();
      if ended {
        finished := true;
        return;
      }
      SendBuffered(results);
    }
  }

  // ---------------------------------------------------------------------------------------
  // Conservation over whole runs
  // ---------------------------------------------------------------------------------------

  datatype SenderEvent =
    | Enqueue(item: Item)
    | CloseChannel
    | PollTask(socketAlive: bool, results: seq<SendResult>)

  /** The task together with everything the channel ever accepted. */
  datatype SenderRun = SenderRun(st: SenderState, accepted: seq<Item>)

  /** The channel refuses packets once the task is gone, and a finished task is not polled again. */
  function SenderStep(r: SenderRun, ev: SenderEvent): SenderRun {
    match ev
    case Enqueue(item) =>
      if r.st.finished || r.st.closed then r
      else SenderRun(r.st.(channel := r.st.channel + [item]), r.accepted + [item])
    case CloseChannel => r.(st := r.st.(closed := true))
    case PollTask(alive, results) =>
      if r.st.finished then r else r.(st := PollSender(r.st, alive, results))
  }

  function SenderAfter(r: SenderRun, evs: seq<SenderEvent>): SenderRun
    decreases |evs|
  {
    if evs == [] then r else SenderAfter(SenderStep(r, evs[0]), evs[1..])
  }

  ghost predicate Accounts(r: SenderRun, sent: seq<Item>) {
    r.accepted == sent + (r.st.buffer + r.st.channel) && r.st.wire == ToDatagrams(sent)
  }

  /** What was accepted is, in order, what is on the wire, in the buffer and in the channel. */
  ghost predicate Conserved(r: SenderRun) {
    exists sent :: Accounts(r, sent)
  }

  lemma ToDatagramsAppend(a: seq<Item>, b: seq<Item>)
    ensures ToDatagrams(a + b) == ToDatagrams(a) + ToDatagrams(b)
  {
  }

  lemma PollAccounts(r: SenderRun, sent: seq<Item>, alive: bool, results: seq<SendResult>)
    requires Accounts(r, sent)
    ensures Conserved(r.(st := PollSender(r.st, alive, results)))
  {
    var r' := r.(st := PollSender(r.st, alive, results));
    if !alive {
      assert Accounts(r', sent);
    } else if r.st.closed {
      assert r'.st.buffer + r'.st.channel == r.st.buffer + r.st.channel;
      assert Accounts(r', sent);
    } else {
      var buffer := r.st.buffer + r.st.channel;
      var k := SentCount(|buffer|, results);
      ToDatagramsAppend(sent, buffer[..k]);
      assert (sent + buffer[..k]) + (buffer[k..] + []) == sent + buffer;
      assert Accounts(r', sent + buffer[..k]);
    }
  }

  lemma StepConserves(r: SenderRun, ev: SenderEvent)
    requires Conserved(r)
    ensures Conserved(SenderStep(r, ev))
  {
    var sent :| Accounts(r, sent);
    match ev
    case Enqueue(item) =>
      var r' := SenderStep(r, ev);
      if r' != r {
        assert r'.accepted == sent + (r'.st.buffer + r'.st.channel);
        assert Accounts(r', sent);
      }
    case CloseChannel => assert Accounts(SenderStep(r, ev), sent);
    case PollTask(alive, results) => PollAccounts(r, sent, alive, results);
  }

  /** Over every sequence of enqueued packets and polls, with every pattern of successful, failed
      and blocked attempts: the datagrams sent, then the buffer, then the channel are exactly the
      packets ever enqueued; none is lost, duplicated, altered or reordered. */
  lemma {:induction false} FifoConservation(r: SenderRun, evs: seq<SenderEvent>)
    requires Conserved(r)
    ensures Conserved(SenderAfter(r, evs))
    decreases |evs|
  {
    if evs != [] {
      StepConserves(r, evs[0]);
      FifoConservation(SenderStep(r, evs[0]), evs[1..]);
    }
  }

  /** In particular from the start of the task. */
  lemma FifoFromStart(evs: seq<SenderEvent>)
    ensures Conserved(SenderAfter(SenderRun(SenderState([], false, [], [], false), []), evs))
  {
    var start := SenderRun(SenderState([], false, [], [], false), []);
    assert Accounts(start, []);
    FifoConservation(start, evs);
  }

  /** The answers given before the socket first blocks, and how many of them were successes. */
  function Successes(results: seq<SendResult>): nat {
    if results == [] || results[0] == SendBlocked then 0
    else (if results[0] == SendOk then 1 else 0) + Successes(results[1..])
  }

  /** A poll sends one packet per success the socket reports before blocking, if it has as many. */
  lemma {:induction false} SentCountExact(n: nat, results: seq<SendResult>)
    ensures SentCount(n, results) == if n <= Successes(results) then n else Successes(results)
  {
    if n > 0 && results != [] && results[0] != SendBlocked {
      SentCountExact(if results[0] == SendOk then n - 1 else n, results[1..]);
    }
  }

  /** One poll of a task that can go on sends the oldest packets it has, as many as the socket takes before it
      blocks. */
  lemma PollSends(st: SenderState, results: seq<SendResult>)
    requires !st.closed
    ensures var all, n := st.buffer + st.channel, Successes(results);
            var st' := PollSender(st, true, results);
            && st'.wire == st.wire + ToDatagrams(if |all| <= n then all else all[..n])
            && st'.buffer + st'.channel == (if |all| <= n then [] else all[n..])
            && st'.finished == st.finished
  {
    var all := st.buffer + st.channel;
    SentCountExact(|all|, results);
    assert all[..|all|] == all && all[|all|..] == [];
  }

  predicate EndsAt(evs: seq<SenderEvent>, closed: bool, i: nat)
    requires i < |evs|
  {
    evs[i].PollTask? && (!evs[i].socketAlive || closed || CloseChannel in evs[..i])
  }

  /** A poll of a task that cannot go on sends nothing. */
  lemma LastPoll(st: SenderState, alive: bool, results: seq<SendResult>)
    requires !alive || st.closed
    ensures var st' := PollSender(st, alive, results);
            && st'.finished && st'.wire == st.wire
            && st'.buffer + st'.channel == st.buffer + st.channel
  {
  }

  /** The task is polled when the socket is gone, or when the channel had been closed before. */
  predicate Ends(evs: seq<SenderEvent>, closed: bool) {
    exists i :: 0 <= i < |evs| && EndsAt(evs, closed, i)
  }

  lemma EndsLater(evs: seq<SenderEvent>, closed: bool)
    requires evs != []
    ensures Ends(evs, closed) <==> EndsAt(evs, closed, 0) || Ends(evs[1..], closed || evs[0] == CloseChannel)
  {
    var closed' := closed || evs[0] == CloseChannel;
    forall i | 0 < i < |evs|
      ensures EndsAt(evs, closed, i) <==> EndsAt(evs[1..], closed', i - 1)
    {
      assert evs[..i] == [evs[0]] + evs[1..][..i - 1];
    }
    if Ends(evs[1..], closed') {
      var i :| 0 <= i < |evs[1..]| && EndsAt(evs[1..], closed', i);
      assert EndsAt(evs, closed, i + 1);
    }
  }

  /** Over every run the task finishes exactly when it is polled with the socket gone or the channel closed. */
  lemma {:induction false} FinishesExactly(r: SenderRun, evs: seq<SenderEvent>)
    ensures SenderAfter(r, evs).st.finished <==> r.st.finished || Ends(evs, r.st.closed)
    decreases |evs|
  {
    if evs != [] {
      EndsLater(evs, r.st.closed);
      FinishesExactly(SenderStep(r, evs[0]), evs[1..]);
    }
  }

  /** After that it sends nothing and takes nothing any more. */
  lemma {:induction false} FinishedStays(r: SenderRun, evs: seq<SenderEvent>)
    requires r.st.finished
    ensures var r' := SenderAfter(r, evs);
            r'.accepted == r.accepted && r'.st == r.st.(closed := r'.st.closed)
    decreases |evs|
  {
    if evs != [] {
      FinishedStays(SenderStep(r, evs[0]), evs[1..]);
    }
  }
}
