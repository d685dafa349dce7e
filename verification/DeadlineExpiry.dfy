/** What the deadline scheduler promises about expired requests (block/deadline-iosched.c): which
    request a dispatch hands out, and how long an expired one can still be passed over. */
module DeadlineExpiry {
  import opened Options
  import opened SortTree
  import opened Deadline
  import opened DeadlineSched

  // ---------- one dispatch ----------

  /** The running batch goes on: its next request follows the last one on the disk, and it is short. */
  predicate Continues(s: State, t: Tunables) {
    Candidate(s).Some? && Candidate(s).value.sector == s.last && s.batching < t.fifoBatch
  }

  predicate Expired(s: State, d: bool) { LaneOf(s, d).fifo != [] && s.now > LaneOf(s, d).fifo[0].time }

  /** What a dispatch hands out, and the counters it leaves. A batch that goes on hands out its next
      request. A new one goes to reads unless none is queued, or writes are and were passed over often
      enough; and it begins with the oldest request of its direction when that one has expired, or when
      no next request is known. */
  predicate Rule(s: State, t: Tunables, rq: Request, batching: nat, starved: nat) {
    if Continues(s, t) then rq == Candidate(s).value && batching == s.batching + 1 && starved == s.starved
    else
      var l := LaneOf(s, rq.sync);
      && batching == 1 && l.fifo != []
      && (rq.sync <==> s.rd.fifo != [] && (s.wr.fifo == [] || s.starved < t.writesStarved))
      && (Expired(s, rq.sync) || l.next == None ==> rq == l.fifo[0].rq)
      && (!Expired(s, rq.sync) && l.next.Some? ==> rq == l.next.value)
      && starved == (if !rq.sync then 0 else if s.wr.fifo == [] then s.starved else s.starved + 1)
  }

  lemma DispatchRule(s: State, t: Tunables)
    requires Inv(s, t) && (s.rd.sort != [] || s.wr.sort != [])
    ensures Choose(s, t).Pick? && Rule(s, t, Choose(s, t).rq, Choose(s, t).batching, Choose(s, t).starved)
  {
    PickIsQueued(s, t);
    FoundIsQueued(s, t, true);
    FoundIsQueued(s, t, false);
    hide Inv;
  }

  /** The next request is the queued one with the next larger sector. */
  ghost predicate Follows(l: Lane, rq: Request) {
    && (l.next == None ==> forall x :: x in l.sort ==> x.sector < rq.sector)
    && (l.next.Some? ==>
          && l.next.value in l.sort && rq.sector < l.next.value.sector
          && forall x :: x in l.sort ==> x.sector < rq.sector || l.next.value.sector <= x.sector)
  }

  /** What follows is found in the request's own direction, and the other direction has no next request. */
  lemma NextFollows(s: State, t: Tunables, rq: Request, size: nat)
    requires Inv(s, t) && rq in LaneOf(s, rq.sync).sort
    ensures var s' := MoveRequest(s, rq, size);
            Follows(LaneOf(s', rq.sync), rq) && LaneOf(s', !rq.sync).next == None && s'.last == rq.sector + size
  {
    SortedOf(LaneOf(s, rq.sync), Limit(s, t, rq.sync), multiset{});
    hide Inv, DropTimed;
    var list := LaneOf(s, rq.sync).sort;
    var i := IndexOf(list, rq);
    Successor(list, i);
    hide Latter, Without, IndexOf;
  }

  lemma Successor(list: seq<Request>, i: nat)
    requires Sorted(list) && i < |list|
    ensures var n, rest := Latter(list, i), Without(list, i);
            n != Some(list[i]) && Follows(Lane(rest, [], n), list[i])
  {
    var rest := Without(list, i);
    assert i + 1 < |list| ==> rest[i] == list[i + 1];
  }

  // ---------- how long an expired request waits ----------

  /** At every dispatch of the run the oldest request of direction d has expired, and another one is handed out. */
  ghost predicate PassedOver(s: State, t: Tunables, d: bool, ops: seq<Op>)
    requires Legal(s, t, ops)
    decreases |ops|
  {
    ops == [] ||
    (&& (ops[0].Run? ==> Expired(s, d) && Choose(s, t).Pick? && Choose(s, t).rq != LaneOf(s, d).fifo[0].rq)
     && PassedOver(Step(s, t, ops[0]), t, d, ops[1..]))
  }

  /** What is left of the batch. */
  function BatchLeft(s: State, t: Tunables): nat { if s.batching < t.fifoBatch then t.fifoBatch - s.batching else 0 }

  /** How many dispatches can still go past an expired read: the rest of this batch, and one batch of
      writes if it is the writes' turn. */
  function ReadRoom(s: State, t: Tunables): nat {
    BatchLeft(s, t) + if s.starved >= t.writesStarved then AtLeastOne(t.fifoBatch) else 0
  }

  function RoomFor(s: State, t: Tunables, d: bool): nat
    requires s.starved <= t.writesStarved
  {
    if d then ReadRoom(s, t) else Room(s, t)
  }

  /** Every dispatch that passes over an expired request uses up room. */
  lemma PassingUsesRoom(s: State, t: Tunables, d: bool)
    requires Inv(s, t) && Expired(s, d) && (d ==> t.writesStarved > 0)
    ensures Choose(s, t).Pick?
    ensures var c := Choose(s, t);
            c.rq != LaneOf(s, d).fifo[0].rq ==>
              c.starved <= t.writesStarved && RoomFor(s.(batching := c.batching, starved := c.starved), t, d) < RoomFor(s, t, d)
  {
    FoundIsQueued(s, t, d);
    PickIsQueued(s, t);
    DispatchRule(s, t);
    var k, f := t.writesStarved - s.starved, AtLeastOne(t.fifoBatch);
    if k > 0 { OneBatchLess(k, f); }
    hide Inv, Choose;
  }

  lemma {:induction false} PassingIsBounded(s: State, t: Tunables, d: bool, ops: seq<Op>)
    requires Inv(s, t) && Legal(s, t, ops) && PassedOver(s, t, d, ops) && (d ==> t.writesStarved > 0)
    ensures Dispatches(ops) <= RoomFor(s, t, d)
    decreases |ops|
  {
    hide Choose, RoomFor, Step, Dispatch, Expired;
    if ops != [] {
      StepKeeps(s, t, ops[0]);
      var s' := Step(s, t, ops[0]);
      PassingIsBounded(s', t, d, ops[1..]);
      if ops[0].Run? {
        PassingUsesRoom(s, t, d);
        DispatchCounters(s, t, ops[0].size);
        StepIsDispatch(s, t, ops[0]);
        SameRoomFor(s.(batching := Choose(s, t).batching, starved := Choose(s, t).starved), s', t, d);
      } else {
        OthersKeepRoom(s, t, ops[0]);
        SameRoomFor(s, s', t, d);
      }
    }
  }

  lemma SameRoomFor(s: State, s': State, t: Tunables, d: bool)
    requires s.batching == s'.batching && s.starved == s'.starved <= t.writesStarved
    ensures RoomFor(s, t, d) == RoomFor(s', t, d)
  {
  }

  /** Whatever is added, merged or removed in between, an expired oldest write is passed over by at most
      (writes_starved + 1) * max(1, fifo_batch) dispatches; an expired oldest read by at most
      2 * max(1, fifo_batch), if writes_starved is not zero. */
  lemma ExpiredAreServed(s: State, t: Tunables, d: bool, ops: seq<Op>)
    requires Inv(s, t) && Legal(s, t, ops) && PassedOver(s, t, d, ops)
    ensures !d ==> Dispatches(ops) <= (t.writesStarved + 1) * AtLeastOne(t.fifoBatch)
    ensures d && t.writesStarved > 0 ==> Dispatches(ops) <= 2 * AtLeastOne(t.fifoBatch)
  {
    if !d || t.writesStarved > 0 {
      PassingIsBounded(s, t, d, ops);
      hide Inv, Legal, PassedOver;
      RoomIsBounded(s, t);
    }
  }

  // ---------- writes_starved == 0 ----------

  /** n times: a write comes in, and a request is dispatched. */
  function WriteStream(w: Request, n: nat): seq<Op> { if n == 0 then [] else [Add(w, 0), Run(0)] + WriteStream(w, n - 1) }

  /** With writes_starved zero there is no bound for reads: for every n, a stream of n writes goes past
      a read that has expired. */
  lemma {:induction false} ReadsCanWait(s: State, t: Tunables, w: Request, n: nat)
    requires Inv(s, t) && t.writesStarved == 0 && Expired(s, true)
    requires !w.sync && s.wr == Lane([], [], None) && s.rd.next == None
    ensures Legal(s, t, WriteStream(w, n)) && PassedOver(s, t, true, WriteStream(w, n)) && Dispatches(WriteStream(w, n)) == n
    decreases n
  {
    hide Inv, AddRequest, Dispatch, Choose, Expired, Step;
    if n > 0 {
      var ops := WriteStream(w, n);
      assert ops[2..] == WriteStream(w, n - 1);
      var s1 := AddRequest(s, t, w, 0);
      WriteComes(s, t, w);
      var s2 := Dispatch(s1, t, 0);
      AddKeeps(s, t, w, 0);
      DispatchKeeps(s1, t, 0);
      ReadsCanWait(s2, t, w, n - 1);
      hide Legal, PassedOver, Dispatches;
      StreamStep(s, t, ops, s1, s2);
    }
  }

  lemma StreamStep(s: State, t: Tunables, ops: seq<Op>, s1: State, s2: State)
    requires |ops| >= 2 && ops[0].Add? && ops[1].Run? && s1 == AddRequest(s, t, ops[0].rq, ops[0].aliasSize) && s2 == Dispatch(s1, t, ops[1].size)
    requires Legal(s2, t, ops[2..]) && PassedOver(s2, t, true, ops[2..])
    requires Expired(s1, true) && Choose(s1, t).Pick? && Choose(s1, t).rq != s1.rd.fifo[0].rq
    ensures Legal(s, t, ops) && PassedOver(s, t, true, ops) && Dispatches(ops) == 1 + Dispatches(ops[2..])
  {
    assert ops[1..][1..] == ops[2..];
    assert Legal(s1, t, ops[1..]);
  }

  /** One write comes in and goes out at once; the read stays where it is. */
  lemma WriteComes(s: State, t: Tunables, w: Request)
    requires Inv(s, t) && t.writesStarved == 0 && Expired(s, true)
    requires !w.sync && s.wr == Lane([], [], None) && s.rd.next == None
    ensures var s1 := AddRequest(s, t, w, 0);
            var s2 := Dispatch(s1, t, 0);
            && Expired(s1, true) && Choose(s1, t).Pick? && Choose(s1, t).rq == w != s1.rd.fifo[0].rq
            && Expired(s2, true) && s2.wr == Lane([], [], None) && s2.rd.next == None
  {
    LaneFacts(s.rd, Limit(s, t, true));
    var s1 := AddRequest(s, t, w, 0);
    assert s1.wr == Lane([w], [Timed(w, Limit(s, t, false))], None);
    assert s1.rd == s.rd;
    assert Choose(s1, t).rq == w;
    assert IndexOf([w], w) == 0;
    assert MoveOut(s1.wr, w) == Lane([], [], None);
  }
}
