/** The bound on the reorder buffer, and that its conditions are exact. */
module BufferLimits {
  import opened Words
  import opened Packets
  import opened Streams
  import opened Filters
  import opened Endpoints
  import opened Transfer
  import opened ReorderBuffer
  import opened Runs
  import opened Limits

  /** The numbers of different segments less than a full turn apart are different. */
  lemma {:induction false} WindowExact(isn: u16, k: nat)
    requires k <= 0x1_0000
    ensures |Window(isn, k)| == k
    ensures forall key <- Window(isn, k) :: exists d :: 1 <= d <= k && key == Num(isn, d)
  {
    if k > 0 {
      WindowExact(isn, k - 1);
      if Num(isn, k) in Window(isn, k - 1) {
        var d :| 1 <= d <= k - 1 && Num(isn, k) == Num(isn, d);
        NumInjective(isn, k, d);
        assert false;
      }
      assert Num(isn, k) == Num(isn, k);
    }
  }

  // ---------------------------------------------------------------------------------------
  // Parking segments
  // ---------------------------------------------------------------------------------------

  /** The receiver has assembled `a` segments of `x`, holds the numbers `keys` in its reorder buffer
      and has no packet waiting. */
  ghost predicate Parked(s: System, from: Side, x: Endpoint, a: nat, keys: set<u16>) {
    var y := s.At(from.Other());
    && s.At(from) == x
    && y.st.mailbox == [] && !y.st.closed
    && |y.assembled| == a && y.st.ackNumber == Num(x.isn, a)
    && y.st.inboundData.Keys == keys
  }

  /** The circular distance at which the filter accepts data. */
  predicate Acceptable(i: int, a: int) {
    -128 <= i - a <= 128 || 0x1_0000 - 128 <= i - a < 0x1_0000
  }

  lemma FlushOne(isn: u16, y: Endpoint, a: nat, p: Packet, i: nat)
    requires y.st.mailbox == [] && !y.st.closed && y.st.ackNumber == Num(isn, a)
    requires p.packetType == Data && p.seqNumber == Num(isn, i) && Acceptable(i, a)
    ensures var y' := Do(Arrive(y, p, i), Flush);
            && y'.st.mailbox == [] && !y'.st.closed
            && y'.assembled == y.assembled && y'.st.ackNumber == y.st.ackNumber
            && y'.st.inboundData.Keys == y.st.inboundData.Keys + {p.seqNumber}
            && y'.late == Arrive(y, p, i).late
  {
    var st := Arrive(y, p, i).st;
    DataFilterExact(isn, a, i, st.seqNumber, |st.unackedData|, p);
    AbsorbOne(st, p);
  }

  /** The run so far keeps to the lead, if the receiver still has everything ahead of it. */
  ghost predicate StillLeading(s: System, evs: seq<Event>, from: Side, a: nat, lead: nat)
    requires Possible(s, evs)
  {
    a == 0 ==> LeadRun(s, evs, from, lead)
  }

  /** Hand over segment `i`, and let the receiver take it in without reading. */
  lemma ParkOne(s: System, evs: seq<Event>, from: Side, x: Endpoint, a: nat, keys: set<u16>, i: nat)
    returns (evs': seq<Event>)
    requires Sent(x) && 1 <= i <= |x.segs| && Acceptable(i, a)
    requires Possible(s, evs) && Parked(After(s, evs), from, x, a, keys) && StillLeading(s, evs, from, a, |x.segs|)
    ensures Possible(s, evs') && Parked(After(s, evs'), from, x, a, keys + {Num(x.isn, i)})
    ensures StillLeading(s, evs', from, a, |x.segs|)
  {
    assert from.Other().Other() == from;
    assert SentAs(x.isn, x.segs[i - 1], x.st.outgoing[i], x.tags[i], i);
    var y := After(s, evs).At(from.Other());
    var deliver, flush := Deliver(from.Other(), i), Poll(from.Other(), Flush);
    Extend(s, evs, deliver);
    var mid := evs + [deliver];
    assert After(s, mid).At(from.Other()) == Arrive(y, x.st.outgoing[i], i);
    FlushOne(x.isn, y, a, x.st.outgoing[i], i);
    Extend(s, mid, flush);
    evs' := mid + [flush];
    if a == 0 {
      LeadAtEnd(s, evs, from, |x.segs|);
      ExtendLead(s, evs, deliver, from, |x.segs|);
      ExtendLead(s, mid, flush, from, |x.segs|);
    }
  }

  /** Do so with the first `k` segments. */
  lemma {:induction false} ParkMany(s: System, evs: seq<Event>, from: Side, x: Endpoint, a: nat, k: nat)
    returns (evs': seq<Event>)
    requires Sent(x) && k <= |x.segs| && a <= 128 && k <= a + 128
    requires Possible(s, evs) && Parked(After(s, evs), from, x, a, {}) && StillLeading(s, evs, from, a, |x.segs|)
    ensures Possible(s, evs') && Parked(After(s, evs'), from, x, a, Window(x.isn, k))
    ensures StillLeading(s, evs', from, a, |x.segs|)
  {
    if k == 0 {
      return evs;
    }
    evs' := ParkMany(s, evs, from, x, a, k - 1);
    evs' := ParkOne(s, evs', from, x, a, Window(x.isn, k - 1), k);
  }

  // ---------------------------------------------------------------------------------------
  // Without late copies
  // ---------------------------------------------------------------------------------------

  /** If no segment comes late and the sender is at most `lead` ahead, the buffer holds at most 128. */
  ghost predicate BufferLeadHolds(lead: nat) {
    forall s, evs, from: Side | Start(s) && Possible(s, evs) && LeadRun(s, evs, from, lead) ::
      |After(s, evs).At(from.Other()).st.inboundData| <= ACCEPTABLE_DISTANCE
  }

  lemma {:induction false} LeadIsCalm(s: System, evs: seq<Event>, from: Side, lead: nat)
    requires Possible(s, evs) && LeadRun(s, evs, from, lead) && lead < 0x1_0000 - 128
    ensures CalmRun(s, evs, from)
    decreases |evs|
  {
    if evs != [] {
      LeadIsCalm(Step(s, evs[0]), evs[1..], from, lead);
    }
  }

  lemma {:induction false} LeadGrows(s: System, evs: seq<Event>, from: Side, lead: nat, lead': nat)
    requires Possible(s, evs) && LeadRun(s, evs, from, lead) && lead <= lead'
    ensures LeadRun(s, evs, from, lead')
    decreases |evs|
  {
    if evs != [] {
      LeadGrows(Step(s, evs[0]), evs[1..], from, lead, lead');
    }
  }

  lemma OneMoreKey(isn: u16, k: nat, i: nat, buffer: map<u16, Bytes>)
    requires k < i <= 0x1_0000 && buffer.Keys == Window(isn, k) + {Num(isn, i)}
    ensures |buffer| == k + 1
  {
    WindowExact(isn, k);
    if Num(isn, i) in Window(isn, k) {
      var d :| 1 <= d <= k && Num(isn, i) == Num(isn, d);
      NumInjective(isn, i, d);
      assert false;
    }
    assert |buffer| == |buffer.Keys|;
  }

  /** Of 65408 segments, the first 128 and the last are parked together: the last is taken for one
      that is 128 behind. */
  lemma LeadOverfills(s: System, from: Side) returns (evs: seq<Event>)
    requires Start(s)
    ensures Possible(s, evs) && LeadRun(s, evs, from, 0x1_0000 - 128)
    ensures |After(s, evs).At(from.Other()).st.inboundData| == ACCEPTABLE_DISTANCE + 1
  {
    var n := 0x1_0000 - 128;
    StartFacts(s, from);
    StartFacts(s, from.Other());
    var write, x := OneWrite(s, from, n);
    assert Possible(s, []) && [] + [write] == [write];
    ExtendLead(s, [], write, from, n);
    assert Num(x.isn, 0) == x.isn;
    evs := ParkMany(s, [write], from, x, 0, 128);
    evs := ParkOne(s, evs, from, x, 0, Window(x.isn, 128), n);
    OneMoreKey(x.isn, 128, n, After(s, evs).At(from.Other()).st.inboundData);
  }

  /** Without late copies the bound of 128 holds exactly for a sender less than 65408 ahead. */
  lemma BufferLeadLimit(lead: nat)
    ensures BufferLeadHolds(lead) <==> lead < 0x1_0000 - 128
  {
    if lead < 0x1_0000 - 128 {
      forall s, evs, from: Side | Start(s) && Possible(s, evs) && LeadRun(s, evs, from, lead)
        ensures |After(s, evs).At(from.Other()).st.inboundData| <= ACCEPTABLE_DISTANCE
      {
        LeadIsCalm(s, evs, from, lead);
        BufferBoundedAndFaithful(s, evs, from);
      }
    } else {
      var s := Opened(0, 0, SocketAddr([], 0), SocketAddr([], 0));
      var evs := LeadOverfills(s, Client);
      LeadGrows(s, evs, Client, 0x1_0000 - 128, lead);
    }
  }

  // ---------------------------------------------------------------------------------------
  // Against any network
  // ---------------------------------------------------------------------------------------

  /** Whatever the network does with at most `n` segments, the buffer holds at most 128. */
  ghost predicate BufferCountHolds(n: nat) {
    forall s, evs, from: Side | Start(s) && Possible(s, evs) && |After(s, evs).At(from).segs| <= n ::
      |After(s, evs).At(from.Other()).st.inboundData| <= ACCEPTABLE_DISTANCE
  }

  lemma GenuineIsSmall(isn: u16, segs: seq<Bytes>, a: nat, late: set<nat>, buffer: map<u16, Bytes>)
    requires GenuineBuffer(isn, segs, a, late, buffer)
    ensures |buffer| <= |segs|
  {
    var window := Window(isn, |segs|);
    forall key <- buffer.Keys
      ensures key in window
    {
      var i :| Stands(isn, segs, a, late, key, buffer[key], i);
    }
    SubsetSize(buffer.Keys, window);
  }

  lemma FewFit(s: System, evs: seq<Event>, from: Side)
    requires Start(s) && Possible(s, evs) && |After(s, evs).At(from).segs| < 0x1_0000
    ensures |After(s, evs).At(from.Other()).st.inboundData| <= |After(s, evs).At(from).segs|
  {
    StartEstablishes(s, from);
    ShortRunIsTame(s, evs, from);
    RunKeeps(s, evs, from);
    var x, y := After(s, evs).At(from), After(s, evs).At(from.Other());
    GenuineIsSmall(x.isn, x.segs, |y.assembled|, y.late, y.st.inboundData);
  }

  /** Of 129 segments, 128 are assembled; late copies of them are parked, never to be removed. */
  lemma LateCopiesOverfill(s: System, from: Side) returns (evs: seq<Event>)
    requires Start(s)
    ensures Possible(s, evs) && |After(s, evs).At(from).segs| == ACCEPTABLE_DISTANCE + 1
    ensures |After(s, evs).At(from.Other()).st.inboundData| == ACCEPTABLE_DISTANCE + 1
  {
    var write, x := OneWrite(s, from, 129);
    evs := FromStart(s, [write], from, x, 128);
    evs := ParkMany(s, evs, from, x, 128, 129);
    WindowExact(x.isn, 129);
    var buffer := After(s, evs).At(from.Other()).st.inboundData;
    assert |buffer| == |buffer.Keys|;
  }

  /** Against any network the bound of 128 holds exactly up to 128 segments. */
  lemma BufferCountLimit(n: nat)
    ensures BufferCountHolds(n) <==> n <= ACCEPTABLE_DISTANCE
  {
    if n <= ACCEPTABLE_DISTANCE {
      forall s, evs, from: Side | Start(s) && Possible(s, evs) && |After(s, evs).At(from).segs| <= n
        ensures |After(s, evs).At(from.Other()).st.inboundData| <= ACCEPTABLE_DISTANCE
      {
        FewFit(s, evs, from);
      }
    } else {
      var s := Opened(0, 0, SocketAddr([], 0), SocketAddr([], 0));
      var evs := LateCopiesOverfill(s, Client);
    }
  }
}
