/** struct deadline_data and the functions that change it. */
module DeadlineDatas {
  import opened Options
  import opened SortTree
  import opened Deadline
  import opened Sched = DeadlineSched
  import opened DeadlineExpiry

  class DeadlineData {
    const tunables: Tunables
    var rd: Lane
    var wr: Lane
    var batching: nat
    var starved: nat
    var lastSector: nat
    var jiffies: nat
    /** What was handed to elv_dispatch_add_tail, in order. */
    ghost var handed: seq<Request>

    ghost function Abs(): State
      reads this
    {
      State(rd, wr, batching, starved, lastSector, jiffies)
    }

    ghost predicate Valid()
      reads this
    {
      Inv(Abs(), tunables)
    }

    /** elevator nr_sorted: what is queued and not yet dispatched. */
    ghost function NrSorted(): nat
      reads this
    {
      |rd.sort| + |wr.sort|
    }

    /** Every request ever handed out or still queued. */
    ghost function Known(): multiset<Request>
      reads `rd, `wr, `handed
    {
      multiset(rd.sort) + multiset(wr.sort) + multiset(handed)
    }

    constructor (t: Tunables)
      ensures Valid() && Abs() == Initial() && tunables == t && Known() == multiset{}
    {
      tunables := t;
      rd, wr := Lane([], [], None), Lane([], [], None);
      batching, starved, lastSector, jiffies, handed := 0, 0, 0, 0, [];
      new;
      InitialInv(t);
    }

    method MoveRequest(rq: Request, size: nat)
      requires Valid() && rq in LaneOf(Abs(), rq.sync).sort
      modifies `rd, `wr, `lastSector, `handed
      ensures Valid() && Abs() == Sched.MoveRequest(old(Abs()), rq, size)
      ensures handed == old(handed) + [rq] && NrSorted() == old(NrSorted()) - 1 && Known() == old(Known())
      ensures Follows(LaneNow(rq.sync), rq) && LaneNow(!rq.sync).next == None
    {
      hide Inv, MoveOut, Without, IndexOf, Follows;
      MoveKeeps(Abs(), tunables, rq, size);
      NextFollows(Abs(), tunables, rq, size);
      WithoutCounts(LaneOf(Abs(), rq.sync).sort, IndexOf(LaneOf(Abs(), rq.sync).sort, rq));
      WithoutLength(LaneOf(Abs(), rq.sync).sort, IndexOf(LaneOf(Abs(), rq.sync).sort, rq));
      rd, wr := rd.(next := None), wr.(next := None);
      MoveOutForgets(LaneOf(old(Abs()), rq.sync), rq);
      lastSector := rq.sector + size;
      if rq.sync { rd := MoveOut(rd, rq); } else { wr := MoveOut(wr, rq); }
      handed := handed + [rq];
    }

    /** The loop of deadline_add_rq_rb, which runs once at most. */
    method MakeWay(rq: Request, aliasSize: nat)
      requires Valid()
      modifies `rd, `wr, `lastSector, `handed
      ensures Valid() && Abs() == MakeRoom(old(Abs()), rq, aliasSize) && Known() == old(Known())
    {
      hide Inv, HasAlias, Alias, MoveOut, Follows;
      ghost var s := Abs();
      MakeRoomKeeps(s, tunables, rq, aliasSize);
      while HasAlias(LaneNow(rq.sync).sort, rq.sector)
        invariant Valid() && Known() == old(Known())
        invariant Abs() == s || Abs() == MakeRoom(s, rq, aliasSize)
        decreases NrSorted()
      {
        var alias := Alias(LaneNow(rq.sync).sort, rq.sector);
        AliasSide(s, tunables, rq);
        MoveRequest(alias, aliasSize);
      }
      if Abs() == s { RoomMade(s, rq, aliasSize); }
    }

    /** deadline_add_request. */
    method AddRequest(rq: Request, aliasSize: nat)
      requires Valid()
      modifies `rd, `wr, `lastSector, `handed
      ensures Valid() && Abs() == Sched.AddRequest(old(Abs()), tunables, rq, aliasSize)
      ensures Known() == old(Known()) + multiset{rq}
      ensures var f := LaneNow(rq.sync).fifo;
              f != [] && f[|f| - 1] == Timed(rq, jiffies + if rq.sync then tunables.expireReads else tunables.expireWrites)
    {
      hide Inv, MakeRoom, Join;
      AddKeeps(Abs(), tunables, rq, aliasSize);
      MakeWay(rq, aliasSize);
      JoinCounts(LaneNow(rq.sync), rq, jiffies + (if rq.sync then tunables.expireReads else tunables.expireWrites));
      var expire := if rq.sync then tunables.expireReads else tunables.expireWrites;
      if rq.sync { rd := Join(rd, rq, jiffies + expire); } else { wr := Join(wr, rq, jiffies + expire); }
    }

    function LaneNow(d: bool): (l: Lane)
      reads this
      ensures l == LaneOf(Abs(), d)
    {
      if d then rd else wr
    }

    /** deadline_dispatch_requests: answers 0 exactly when nothing is queued. */
    method DispatchRequests(size: nat) returns (dispatched: nat)
      requires Valid()
      modifies `rd, `wr, `batching, `starved, `lastSector, `handed
      ensures Valid() && Abs() == Dispatch(old(Abs()), tunables, size)
      ensures dispatched == if old(NrSorted()) == 0 then 0 else 1
      ensures NrSorted() == old(NrSorted()) - dispatched
      ensures Known() == old(Known())
      ensures handed == match Choose(old(Abs()), tunables)
                        case Nothing => old(handed)
                        case Pick(rq, b, v) => old(handed) + [rq]
      ensures dispatched == 1 ==> Rule(old(Abs()), tunables, handed[|handed| - 1], batching, starved)
    {
      hide Inv, Choose, MoveOut, Rule, Follows, IndexOf, Without, Latter;
      ghost var s := Abs();
      PickIsQueued(s, tunables);
      var chosen := SelectRequest();
      if chosen == None { return 0; }
      ghost var c := Choose(s, tunables);
      CountersChange(s, tunables, c.batching, c.starved);
      DispatchRule(s, tunables);
      MoveRequest(chosen.value, size);
      dispatched := 1;
    }

    /** The choice, with the counters it changes; the code's BUG checks on empty trees are never hit. */
    method SelectRequest() returns (chosen: Option<Request>)
      requires Valid()
      modifies `batching, `starved
      ensures match Choose(old(Abs()), tunables)
              case Nothing => chosen == None && Abs() == old(Abs())
              case Pick(rq, b, v) => chosen == Some(rq) && batching == b && starved == v
    {
      LaneFacts(rd, Limit(Abs(), tunables, true));
      LaneFacts(wr, Limit(Abs(), tunables, false));
      hide LaneOk, Rqs;
      var anyReads, anyWrites := rd.fifo != [], wr.fifo != [];
      var rq := if wr.next.Some? then wr.next else rd.next;
      if rq.Some? {
        if lastSector != rq.value.sector { batching := batching + tunables.fifoBatch; }
        if batching < tunables.fifoBatch {
          batching := batching + 1;
          return rq;
        }
      }
      var dir;
      if anyReads {
        dir := true;
        if anyWrites {
          if starved >= tunables.writesStarved { dir := false; }
          starved := starved + 1;
        }
      } else if anyWrites {
        dir := false;
      } else {
        return None;
      }
      if !dir { starved := 0; }
      var l := LaneNow(dir);
      if jiffies > l.fifo[0].time || l.next == None { chosen := Some(l.fifo[0].rq); } else { chosen := l.next; }
      batching := 1;
    }

    /** elv_drain_elevator on this scheduler: dispatching until the answer is 0 empties it, so the
        complaint about forced dispatching never comes. */
    method Drain(size: nat) returns (dispatched: nat)
      requires Valid()
      modifies `rd, `wr, `batching, `starved, `lastSector, `handed
      ensures Valid() && NrSorted() == 0 && dispatched == old(NrSorted())
      ensures multiset(handed) == old(Known())
    {
      hide Inv, Dispatch, Choose;
      dispatched := 0;
      var more := DispatchRequests(size);
      while more != 0
        invariant Valid() && more <= 1
        invariant dispatched + more + NrSorted() == old(NrSorted()) && Known() == old(Known())
        invariant more == 0 ==> NrSorted() == 0
        decreases more, NrSorted()
      {
        dispatched := dispatched + more;
        more := DispatchRequests(size);
      }
    }
  }

  lemma AliasSide(s: State, t: Tunables, rq: Request)
    requires Inv(s, t) && HasAlias(LaneOf(s, rq.sync).sort, rq.sector)
    ensures var a := Alias(LaneOf(s, rq.sync).sort, rq.sector); a.sync == rq.sync && a in LaneOf(s, rq.sync).sort
  {
  }

  lemma JoinCounts(l: Lane, rq: Request, time: nat)
    ensures multiset(Join(l, rq, time).sort) == multiset(l.sort) + multiset{rq}
    ensures var f := Join(l, rq, time).fifo; f != [] && f[|f| - 1] == Timed(rq, time)
  {
    InsertedCounts(l.sort, rq);
  }

  lemma RoomMade(s: State, rq: Request, aliasSize: nat)
    requires !HasAlias(LaneOf(s, rq.sync).sort, rq.sector)
    ensures MakeRoom(s, rq, aliasSize) == s
  {
  }

  lemma CountersChange(s: State, t: Tunables, b: nat, v: nat)
    requires Inv(s, t) && v <= t.writesStarved
    ensures Inv(s.(batching := b, starved := v), t)
  {
  }
}
