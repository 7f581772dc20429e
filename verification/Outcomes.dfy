/** What reads, writes and flushes report, in every run. */
module Outcomes {
  import opened Words
  import opened Streams
  import opened Filters
  import opened Endpoints
  import opened Transfer
  import opened Intake

  /** The stream has only shut down if its channel has ended. */
  predicate OpenOrEnded(e: Endpoint) {
    e.st.isShutdown ==> e.st.closed
  }

  lemma {:induction false} AbsorbShutsDown(st: StreamState)
    ensures Absorb(st).st.isShutdown ==> st.isShutdown || st.closed
    decreases |st.mailbox|
  {
    if st.mailbox != [] {
      var p := st.mailbox[0];
      var st1 := st.(mailbox := st.mailbox[1..]);
      if Supported(p) {
        AbsorbShutsDown(if Ignores(st1, p) then st1 else HandlePacket(st1, p));
      }
    }
  }

  lemma AbsorbKeepsOpen(st: StreamState)
    requires st.isShutdown ==> st.closed
    ensures Absorb(st).st.isShutdown ==> st.closed
    ensures Absorb(st).st.closed == st.closed
  {
    AbsorbFrame(st);
    AbsorbShutsDown(st);
  }

  lemma DoKeepsOpen(e: Endpoint, op: Op)
    requires OpenOrEnded(e)
    ensures OpenOrEnded(Do(e, op))
    ensures Do(e, op).st.closed == (e.st.closed || op == Close)
  {
    AbsorbKeepsOpen(e.st);
    match op
    case Write(buf, sends, clock) => WriteEffect(e.st, buf, sends, clock);
    case _ =>
  }

  /** The channel of `side` has ended in the run. */
  predicate HasEnded(evs: seq<Event>, side: Side) {
    Poll(side, Close) in evs
  }

  lemma StepKeepsOpen(s: System, ev: Event, side: Side)
    requires Enabled(s, ev) && OpenOrEnded(s.At(side))
    ensures OpenOrEnded(Step(s, ev).At(side))
    ensures Step(s, ev).At(side).st.closed == (s.At(side).st.closed || ev == Poll(side, Close))
  {
    match ev
    case Poll(sd, op) =>
      if sd == side {
        DoKeepsOpen(s.At(sd), op);
      }
    case Deliver(_, _) =>
    case Stray(_, _) =>
  }

  lemma {:induction false} RunKeepsOpen(s: System, evs: seq<Event>, side: Side)
    requires Possible(s, evs) && OpenOrEnded(s.At(side))
    ensures OpenOrEnded(After(s, evs).At(side))
    ensures After(s, evs).At(side).st.closed == (s.At(side).st.closed || HasEnded(evs, side))
    decreases |evs|
  {
    if evs != [] {
      StepKeepsOpen(s, evs[0], side);
      RunKeepsOpen(Step(s, evs[0]), evs[1..], side);
      assert evs == [evs[0]] + evs[1..];
    }
  }

  lemma StartOpen(s: System, side: Side)
    requires Start(s)
    ensures !s.At(side).st.isShutdown && !s.At(side).st.closed
  {
    var id, random, clientAddr, serverAddr :| s == Opened(id, random, clientAddr, serverAddr);
  }

  /** What holds of either endpoint at the end of a run. */
  lemma RunEnds(s: System, evs: seq<Event>, side: Side)
    requires Start(s) && Possible(s, evs)
    ensures var e := After(s, evs).At(side);
            && e.st.closed == HasEnded(evs, side) && OpenOrEnded(e) && AllSupported(e.st.mailbox)
  {
    StartOpen(s, side);
    RunKeepsOpen(s, evs, side);
    StartEstablishes(s, side);
    StartSupported(s);
    RunKeepsSupported(s, evs);
  }

  /** At the end of every run, a flush succeeds if and only if the stream it leaves has nothing in flight. If
      it has, it is pending as long as the channel has not ended, and panics once it has. */
  lemma FlushOutcomes(s: System, evs: seq<Event>, side: Side)
    requires Start(s) && Possible(s, evs)
    ensures var r := PollFlush(After(s, evs).At(side).st);
            r.result == if r.st.unackedData == [] then FlushOk
                        else if HasEnded(evs, side) then FlushPanic else FlushPending
  {
    RunEnds(s, evs, side);
    AbsorbStops(After(s, evs).At(side).st);
  }

  /** A read reports the end of the stream if and only if the channel has ended, and never panics; else it is
      refused its acknowledgement, or it has data for the reader, or it is pending. */
  lemma ReadOutcomes(s: System, evs: seq<Event>, side: Side, room: nat, ackSent: bool, now: u32)
    requires Start(s) && Possible(s, evs)
    ensures var st := After(s, evs).At(side).st;
            var r := PollRead(st, room, ackSent, now);
            var available := st.receivedData + Concat(r.segments);
            if HasEnded(evs, side) then r.result == ReadEof && r.segments == []
            else if !ackSent then r.result == ReadError
            else if available == [] then r.result == ReadPending
            else r.result == ReadOk(available[..if |available| > room then room else |available|])
  {
    RunEnds(s, evs, side);
    var st := After(s, evs).At(side).st;
    AbsorbStops(st);
    ReadDoesAllItCan(st, room, ackSent, now);
  }

  predicate WritesNothing(st: StreamState, buf: Bytes, sends: nat, clock: seq<u32>) {
    PollWrite(st, buf, sends, clock) == WriteOutcome(st, [], WriteOk(0))
  }

  /** A write reports the whole buffer unless the socket refuses a packet; and once a read or a flush has seen
      the channel end, it reports that nothing was written. */
  lemma WriteOutcomes(s: System, evs: seq<Event>, side: Side, buf: Bytes, sends: nat, clock: seq<u32>)
    requires Start(s) && Possible(s, evs)
    ensures var st := After(s, evs).At(side).st;
            && (!HasEnded(evs, side) ==>
                  PollWrite(st, buf, sends, clock).result
                  == if sends < |Chunks(buf)| then WriteError else WriteOk(|buf|))
            && (HasEnded(evs, side) ==>
                  && WritesNothing(PollFlush(st).st, buf, sends, clock)
                  && forall room, ackSent, now :: WritesNothing(PollRead(st, room, ackSent, now).st, buf, sends, clock))
  {
    RunEnds(s, evs, side);
    AbsorbStops(After(s, evs).At(side).st);
  }
}
