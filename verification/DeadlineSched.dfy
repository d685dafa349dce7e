/** The deadline scheduler as a whole: both directions, batching and starvation, over every run. */
module DeadlineSched {
  import opened Options
  import opened SortTree
  import opened Deadline

  /** The tunables; `expireReads` and `expireWrites` in ticks. */
  datatype Tunables = Tunables(expireReads: nat, expireWrites: nat, fifoBatch: nat, writesStarved: nat)

  datatype State = State(rd: Lane, wr: Lane, batching: nat, starved: nat, last: nat, now: nat)

  function Initial(): State { State(Lane([], [], None), Lane([], [], None), 0, 0, 0, 0) }

  function LaneOf(s: State, d: bool): Lane { if d then s.rd else s.wr }

  function With(s: State, d: bool, l: Lane): State { if d then s.(rd := l) else s.(wr := l) }

  function Limit(s: State, t: Tunables, d: bool): nat { s.now + if d then t.expireReads else t.expireWrites }

  // ---------- the operations ----------

  /** deadline_move_request of a request of `size` sectors. */
  function MoveRequest(s: State, rq: Request, size: nat): State
    requires rq in LaneOf(s, rq.sync).sort
  {
    var d := rq.sync;
    With(With(s, !d, LaneOf(s, !d).(next := None)), d, MoveOut(LaneOf(s, d), rq)).(last := rq.sector + size)
  }

  /** The loop of deadline_add_rq_rb up to the insertion: a request in the way is dispatched. */
  function MakeRoom(s: State, rq: Request, aliasSize: nat): State {
    var l := LaneOf(s, rq.sync);
    if HasAlias(l.sort, rq.sector) && Alias(l.sort, rq.sector).sync == rq.sync
    then MoveRequest(s, Alias(l.sort, rq.sector), aliasSize) else s
  }

  function AddRequest(s: State, t: Tunables, rq: Request, aliasSize: nat): State {
    var s1 := MakeRoom(s, rq, aliasSize);
    With(s1, rq.sync, Join(LaneOf(s1, rq.sync), rq, Limit(s, t, rq.sync)))
  }

  /** deadline_merged_request after a front merge. */
  function FrontMerge(s: State, rq: Request, sector: nat, aliasSize: nat): State
    requires rq in LaneOf(s, rq.sync).sort
  {
    var d, rq' := rq.sync, rq.(sector := sector);
    var s1 := MakeRoom(With(s, d, TakenOut(LaneOf(s, d), rq, rq')), rq', aliasSize);
    With(s1, d, LaneOf(s1, d).(sort := Inserted(LaneOf(s1, d).sort, rq')))
  }

  /** What deadline_dispatch_requests picks, and the counters it leaves. */
  datatype Choice = Nothing | Pick(rq: Request, batching: nat, starved: nat)

  function Candidate(s: State): Option<Request> { if s.wr.next.Some? then s.wr.next else s.rd.next }

  /** dispatch_find_request. */
  function FindRequest(s: State, d: bool): Option<Request> {
    var l := LaneOf(s, d);
    if l.fifo == [] then None
    else if s.now > l.fifo[0].time || l.next == None then Some(l.fifo[0].rq) else l.next
  }

  function Choose(s: State, t: Tunables): Choice {
    var c := Candidate(s);
    var batching := if c.Some? && s.last != c.value.sector then s.batching + t.fifoBatch else s.batching;
    if c.Some? && batching < t.fifoBatch then Pick(c.value, batching + 1, s.starved)
    else
      var anyReads, anyWrites := s.rd.fifo != [], s.wr.fifo != [];
      if !anyReads && !anyWrites then Nothing
      else
        var toWrites := !anyReads || (anyWrites && s.starved >= t.writesStarved);
        var r := FindRequest(s, !toWrites);
        if r == None then Nothing
        else Pick(r.value, 1, if toWrites then 0 else if anyWrites then s.starved + 1 else s.starved)
  }

  function Dispatch(s: State, t: Tunables, size: nat): State {
    match Choose(s, t)
    case Nothing => s
    case Pick(rq, batching, starved) =>
      var s1 := s.(batching := batching, starved := starved);
      if rq in LaneOf(s1, rq.sync).sort then MoveRequest(s1, rq, size) else s1
  }

  // ---------- what every step keeps ----------

  ghost predicate Sided(l: Lane, d: bool) { forall x :: x in l.sort ==> x.sync == d }

  ghost predicate Inv(s: State, t: Tunables) {
    && LaneOk(s.rd, Limit(s, t, true)) && LaneOk(s.wr, Limit(s, t, false))
    && Sided(s.rd, true) && Sided(s.wr, false)
    && !(s.rd.next.Some? && s.wr.next.Some?)
    && s.starved <= t.writesStarved
  }

  lemma LaneFacts(l: Lane, limit: nat)
    requires LaneOk(l, limit)
    ensures l.fifo == [] <==> l.sort == []
    ensures l.fifo != [] ==> l.fifo[0].rq in l.sort
  {
    RqsCount(l.fifo);
    assert |multiset(Rqs(l.fifo))| == |multiset(l.sort)|;
    if l.fifo != [] {
      assert Rqs(l.fifo)[0] == l.fifo[0].rq;
      assert l.fifo[0].rq in multiset(Rqs(l.fifo));
      assert l.fifo[0].rq in multiset(l.sort);
    }
  }

  lemma ForgetNext(l: Lane, limit: nat, out: multiset<Request>)
    requires LaneBut(l, limit, out)
    ensures LaneBut(l.(next := None), limit, out)
  {
  }

  lemma MoveOutSided(l: Lane, rq: Request, d: bool)
    requires Sided(l, d) && rq in l.sort
    ensures Sided(MoveOut(l, rq), d)
  {
  }

  lemma MoveKeeps(s: State, t: Tunables, rq: Request, size: nat)
    requires Inv(s, t) && rq in LaneOf(s, rq.sync).sort
    ensures Inv(MoveRequest(s, rq, size), t)
    ensures LaneOf(MoveRequest(s, rq, size), rq.sync).sort == Without(LaneOf(s, rq.sync).sort, IndexOf(LaneOf(s, rq.sync).sort, rq))
    ensures LaneOf(MoveRequest(s, rq, size), !rq.sync).sort == LaneOf(s, !rq.sync).sort
  {
    hide MoveOut, LaneBut, Without;
    var d := rq.sync;
    MoveOutKeeps(LaneOf(s, d), rq, Limit(s, t, d), multiset{});
    MoveOutSided(LaneOf(s, d), rq, d);
    ForgetNext(LaneOf(s, !d), Limit(s, t, !d), multiset{});
  }

  /** The code's own BUG checks hold: a direction with a FIFO has a tree; and what is picked is queued. */
  lemma PickIsQueued(s: State, t: Tunables)
    requires Inv(s, t)
    ensures Choose(s, t) == Nothing <==> s.rd.sort == [] && s.wr.sort == []
    ensures Choose(s, t).Pick? ==> Choose(s, t).rq in LaneOf(s, Choose(s, t).rq.sync).sort && Choose(s, t).starved <= t.writesStarved
  {
    hide LaneBut, FindRequest;
    FoundIsQueued(s, t, true);
    FoundIsQueued(s, t, false);
    NextIsQueued(s.rd, Limit(s, t, true), multiset{});
    NextIsQueued(s.wr, Limit(s, t, false), multiset{});
  }

  lemma FoundIsQueued(s: State, t: Tunables, d: bool)
    requires Inv(s, t)
    ensures LaneOf(s, d).fifo == [] <==> LaneOf(s, d).sort == []
    ensures FindRequest(s, d) == None <==> LaneOf(s, d).fifo == []
    ensures FindRequest(s, d).Some? ==> FindRequest(s, d).value.sync == d && FindRequest(s, d).value in LaneOf(s, d).sort
  {
    LaneFacts(LaneOf(s, d), Limit(s, t, d));
    NextIsQueued(LaneOf(s, d), Limit(s, t, d), multiset{});
    hide LaneBut;
  }

  lemma DispatchKeeps(s: State, t: Tunables, size: nat)
    requires Inv(s, t)
    ensures Inv(Dispatch(s, t, size), t)
  {
    PickIsQueued(s, t);
    match Choose(s, t) {
      case Nothing =>
      case Pick(rq, b, v) =>
        var s1 := s.(batching := b, starved := v);
        hide Choose;
        assert Inv(s1, t);
        MoveKeeps(s1, t, rq, size);
    }
  }

  lemma AliasIsQueued(l: Lane, s: nat)
    requires HasAlias(l.sort, s)
    ensures Alias(l.sort, s) in l.sort
  {
  }

  lemma MakeRoomKeeps(s: State, t: Tunables, rq: Request, aliasSize: nat)
    requires Inv(s, t)
    ensures var s1 := MakeRoom(s, rq, aliasSize);
            && Inv(s1, t) && s1.now == s.now && s1.batching == s.batching && s1.starved == s.starved
            && !HasAlias(LaneOf(s1, rq.sync).sort, rq.sector)
  {
    hide MoveOut, LaneBut, Without;
    var l := LaneOf(s, rq.sync);
    if HasAlias(l.sort, rq.sector) {
      var alias := Alias(l.sort, rq.sector);
      AliasIsQueued(l, rq.sector);
      SortedOf(l, Limit(s, t, rq.sync), multiset{});
      AliasGone(l.sort, rq.sector);
      hide HasAlias, Alias, PlaceFor;
      MoveKeeps(s, t, alias, aliasSize);
    }
  }

  lemma SortedOf(l: Lane, limit: nat, out: multiset<Request>)
    requires LaneBut(l, limit, out)
    ensures Sorted(l.sort)
  {
  }

  lemma AddKeeps(s: State, t: Tunables, rq: Request, aliasSize: nat)
    requires Inv(s, t)
    ensures Inv(AddRequest(s, t, rq, aliasSize), t)
  {
    hide LaneBut, MakeRoom, HasAlias;
    var d := rq.sync;
    MakeRoomKeeps(s, t, rq, aliasSize);
    var s1 := MakeRoom(s, rq, aliasSize);
    JoinKeeps(LaneOf(s1, d), rq, Limit(s, t, d), Limit(s, t, d));
    JoinSided(LaneOf(s1, d), rq, Limit(s, t, d));
  }

  lemma JoinSided(l: Lane, rq: Request, time: nat)
    requires Sided(l, rq.sync)
    ensures Sided(Join(l, rq, time), rq.sync)
  {
  }

  lemma LaterIsFine(l: Lane, limit: nat, limit': nat)
    requires LaneOk(l, limit) && limit <= limit'
    ensures LaneOk(l, limit')
  {
    Looser(l.fifo, 0, limit, 0, limit');
  }

  /** The repositioned request's direction, once whatever was in its way is gone. */
  lemma Repositioned(l: Lane, rq: Request, rq': Request, limit: nat)
    requires LaneOk(l, limit) && rq in l.sort
    ensures var m := TakenOut(l, rq, rq');
            if HasAlias(m.sort, rq'.sector) then
              var a := Alias(m.sort, rq'.sector);
              a in m.sort && LaneOk(MoveOut(m, a).(sort := Inserted(MoveOut(m, a).sort, rq')), limit)
            else LaneOk(m.(sort := Inserted(m.sort, rq')), limit)
  {
    hide LaneBut, MoveOut, TakenOut;
    var m := TakenOut(l, rq, rq');
    TakenOutIs(l, rq, rq', limit);
    if HasAlias(m.sort, rq'.sector) {
      var a := Alias(m.sort, rq'.sector);
      AliasIsQueued(m, rq'.sector);
      SortedOf(m.(next := None), limit, multiset{rq'});
      AliasGone(m.sort, rq'.sector);
      MoveOutKeeps(m.(next := None), a, limit, multiset{rq'});
      MoveOutForgets(m, a);
      hide HasAlias, Alias, PlaceFor, Without, IndexOf;
      NextIsQueued(MoveOut(m, a), limit, multiset{rq'});
      PutBack(MoveOut(m, a), rq', limit);
    } else {
      PutBack(m, rq', limit);
    }
  }

  /** The old next request plays no part. */
  lemma MoveOutForgets(l: Lane, rq: Request)
    requires rq in l.sort
    ensures MoveOut(l, rq) == MoveOut(l.(next := None), rq)
  {
  }

  lemma NextIsQueued(l: Lane, limit: nat, out: multiset<Request>)
    requires LaneBut(l, limit, out)
    ensures LaneBut(l.(next := None), limit, out) && (l.next.Some? ==> l.next.value in l.sort)
  {
  }

  lemma FrontMergeKeeps(s: State, t: Tunables, rq: Request, sector: nat, aliasSize: nat)
    requires Inv(s, t) && rq in LaneOf(s, rq.sync).sort
    ensures Inv(FrontMerge(s, rq, sector, aliasSize), t)
  {
    hide LaneBut, MoveOut, TakenOut, HasAlias, Alias, Inserted;
    var d, rq' := rq.sync, rq.(sector := sector);
    var l := LaneOf(s, d);
    var m := TakenOut(l, rq, rq');
    Repositioned(l, rq, rq', Limit(s, t, d));
    TakenOutSided(l, rq, rq', d);
    ForgetNext(LaneOf(s, !d), Limit(s, t, !d), multiset{});
    if HasAlias(m.sort, sector) {
      var a := Alias(m.sort, sector);
      MoveOutSided(m, a, d);
      InsertedSided(MoveOut(m, a), rq', d);
    } else {
      InsertedSided(m, rq', d);
    }
  }

  lemma TakenOutSided(l: Lane, rq: Request, rq': Request, d: bool)
    requires Sided(l, d) && rq in l.sort
    ensures var m := TakenOut(l, rq, rq');
            Sided(m, d) && (m.next.Some? ==> l.next.Some?) && (HasAlias(m.sort, rq'.sector) ==> Alias(m.sort, rq'.sector).sync == d)
  {
  }

  lemma InsertedSided(l: Lane, rq: Request, d: bool)
    requires Sided(l, d) && rq.sync == d
    ensures Sided(l.(sort := Inserted(l.sort, rq)), d)
  {
  }

  // ---------- runs ----------

  datatype Op = Tick(ticks: nat)
              | Add(rq: Request, aliasSize: nat)
              | Remove(rq: Request)                            // deadline_remove_request
              | Merge(rq: Request, next: Request)              // deadline_merged_requests
              | Front(rq: Request, sector: nat, aliasSize: nat)
              | Run(size: nat)                                 // deadline_dispatch_requests

  predicate Enabled(s: State, op: Op) {
    match op
    case Remove(rq) => rq in LaneOf(s, rq.sync).sort
    case Merge(rq, next) => rq in LaneOf(s, rq.sync).sort && next in LaneOf(s, rq.sync).sort && rq != next
    case Front(rq, _, _) => rq in LaneOf(s, rq.sync).sort
    case _ => true
  }

  function Step(s: State, t: Tunables, op: Op): State
    requires Enabled(s, op)
  {
    match op
    case Tick(n) => s.(now := s.now + n)
    case Add(rq, size) => AddRequest(s, t, rq, size)
    case Remove(rq) => With(s, rq.sync, RemoveRequest(LaneOf(s, rq.sync), rq))
    case Merge(rq, next) => With(s, rq.sync, MergedRequests(LaneOf(s, rq.sync), rq, next))
    case Front(rq, sector, size) => FrontMerge(s, rq, sector, size)
    case Run(size) => Dispatch(s, t, size)
  }

  lemma RemoveSided(l: Lane, rq: Request, d: bool)
    requires Sided(l, d) && rq in l.sort
    ensures Sided(RemoveRequest(l, rq), d) && (l.next == None ==> RemoveRequest(l, rq).next == None)
  {
  }

  lemma StepKeeps(s: State, t: Tunables, op: Op)
    requires Inv(s, t) && Enabled(s, op)
    ensures Inv(Step(s, t, op), t)
  {
    hide LaneBut, AddRequest, FrontMerge, Dispatch, RemoveRequest, Sided;
    match op {
      case Tick(n) =>
        LaterIsFine(s.rd, Limit(s, t, true), Limit(s, t, true) + n);
        LaterIsFine(s.wr, Limit(s, t, false), Limit(s, t, false) + n);
      case Add(rq, size) => AddKeeps(s, t, rq, size);
      case Remove(rq) =>
        RemoveKeeps(LaneOf(s, rq.sync), rq, Limit(s, t, rq.sync), multiset{});
        RemoveSided(LaneOf(s, rq.sync), rq, rq.sync);
      case Merge(rq, next) =>
        MergeKeeps(LaneOf(s, rq.sync), rq, next, Limit(s, t, rq.sync));
        MergeSided(LaneOf(s, rq.sync), rq, next, rq.sync);
      case Front(rq, sector, size) => FrontMergeKeeps(s, t, rq, sector, size);
      case Run(size) => DispatchKeeps(s, t, size);
    }
  }

  lemma MergeSided(l: Lane, rq: Request, next: Request, d: bool)
    requires Sided(l, d) && next in l.sort
    ensures Sided(MergedRequests(l, rq, next), d) && (l.next == None ==> MergedRequests(l, rq, next).next == None)
  {
  }

  predicate Legal(s: State, t: Tunables, ops: seq<Op>)
    decreases |ops|
  {
    ops == [] || (Enabled(s, ops[0]) && Legal(Step(s, t, ops[0]), t, ops[1..]))
  }

  function RunAll(s: State, t: Tunables, ops: seq<Op>): State
    requires Legal(s, t, ops)
    decreases |ops|
  {
    if ops == [] then s else RunAll(Step(s, t, ops[0]), t, ops[1..])
  }

  lemma {:induction false} RunKeeps(s: State, t: Tunables, ops: seq<Op>)
    requires Inv(s, t) && Legal(s, t, ops)
    ensures Inv(RunAll(s, t, ops), t)
    decreases |ops|
  {
    if ops != [] {
      StepKeeps(s, t, ops[0]);
      RunKeeps(Step(s, t, ops[0]), t, ops[1..]);
    }
  }

  lemma InitialInv(t: Tunables)
    ensures Inv(Initial(), t)
  {
  }

  /** Tree and FIFO hold the same requests, all of this direction; the tree is in order of sectors, the
      FIFO in order of expiry; the next request, if there is one, is queued. */
  ghost predicate Agrees(l: Lane, d: bool) {
    && (forall i, j :: 0 <= i < j < |l.sort| ==> l.sort[i].sector < l.sort[j].sector)
    && (forall i, j :: 0 <= i < j < |l.fifo| ==> l.fifo[i].time <= l.fifo[j].time)
    && multiset(Rqs(l.fifo)) == multiset(l.sort) && (forall x :: x in l.sort ==> x.sync == d)
    && (l.next.Some? ==> l.next.value in l.sort)
  }

  lemma LaneAgrees(l: Lane, limit: nat, d: bool)
    requires LaneOk(l, limit) && Sided(l, d)
    ensures Agrees(l, d)
  {
    hide InTime, Rqs;
    forall i, j | 0 <= i < j < |l.fifo| ensures l.fifo[i].time <= l.fifo[j].time { InTimeMeans(l.fifo, 0, limit, i, j); }
  }

  /** In every run, from an empty scheduler, both directions agree and at most one has a next request. */
  lemma ListsAgree(t: Tunables, ops: seq<Op>)
    requires Legal(Initial(), t, ops)
    ensures var s := RunAll(Initial(), t, ops);
            Agrees(s.rd, true) && Agrees(s.wr, false) && !(s.rd.next.Some? && s.wr.next.Some?)
  {
    InitialInv(t);
    RunKeeps(Initial(), t, ops);
    var s := RunAll(Initial(), t, ops);
    hide RunAll, Legal, LaneOk, Agrees;
    LaneAgrees(s.rd, Limit(s, t, true), true);
    LaneAgrees(s.wr, Limit(s, t, false), false);
  }

  // ---------- writes are not starved ----------

  function AtLeastOne(n: nat): nat { if n == 0 then 1 else n }

  /** How many reads can still go first: what is left of the batch, and the batches reads may still start. */
  function Room(s: State, t: Tunables): nat
    requires s.starved <= t.writesStarved
  {
    (if s.batching < t.fifoBatch then t.fifoBatch - s.batching else 0) + (t.writesStarved - s.starved) * AtLeastOne(t.fifoBatch)
  }

  /** A dispatch with a write pending hands out a write, or a read that uses up room. */
  lemma ReadUsesRoom(s: State, t: Tunables)
    requires Inv(s, t) && s.wr.fifo != []
    ensures Choose(s, t).Pick?
    ensures var c := Choose(s, t);
            c.rq.sync ==> c.starved <= t.writesStarved && Room(s.(batching := c.batching, starved := c.starved), t) < Room(s, t)
  {
    PickIsQueued(s, t);
    LaneFacts(s.wr, Limit(s, t, false));
    var k, f := t.writesStarved - s.starved, AtLeastOne(t.fifoBatch);
    if k > 0 { OneBatchLess(k, f); }
    hide Rqs, InTime, Sorted;
  }

  lemma OneBatchLess(k: nat, f: nat)
    requires k > 0
    ensures (k - 1) * f == k * f - f
  {
  }

  lemma OthersKeepRoom(s: State, t: Tunables, op: Op)
    requires Enabled(s, op) && !op.Run?
    ensures Step(s, t, op).batching == s.batching && Step(s, t, op).starved == s.starved
  {
  }

  /** At every dispatch of the run a write is pending, and a read goes first. */
  ghost predicate WritesWait(s: State, t: Tunables, ops: seq<Op>)
    requires Legal(s, t, ops)
    decreases |ops|
  {
    ops == [] ||
    (&& (ops[0].Run? ==> s.wr.fifo != [] && Choose(s, t).Pick? && Choose(s, t).rq.sync)
     && WritesWait(Step(s, t, ops[0]), t, ops[1..]))
  }

  function Dispatches(ops: seq<Op>): nat { if ops == [] then 0 else (if ops[0].Run? then 1 else 0) + Dispatches(ops[1..]) }

  lemma DispatchCounters(s: State, t: Tunables, size: nat)
    requires Inv(s, t) && Choose(s, t).Pick?
    ensures Dispatch(s, t, size).batching == Choose(s, t).batching && Dispatch(s, t, size).starved == Choose(s, t).starved
  {
  }

  lemma {:induction false} WaitIsBounded(s: State, t: Tunables, ops: seq<Op>)
    requires Inv(s, t) && Legal(s, t, ops) && WritesWait(s, t, ops)
    ensures Dispatches(ops) <= Room(s, t)
    decreases |ops|
  {
    hide Choose, Room, Step, Dispatch;
    if ops != [] {
      StepKeeps(s, t, ops[0]);
      var s' := Step(s, t, ops[0]);
      WaitIsBounded(s', t, ops[1..]);
      if ops[0].Run? {
        ReadUsesRoom(s, t);
        DispatchCounters(s, t, ops[0].size);
        StepIsDispatch(s, t, ops[0]);
        SameRoom(s.(batching := Choose(s, t).batching, starved := Choose(s, t).starved), s', t);
      } else {
        OthersKeepRoom(s, t, ops[0]);
        SameRoom(s, s', t);
      }
    }
  }

  lemma StepIsDispatch(s: State, t: Tunables, op: Op)
    requires op.Run?
    ensures Step(s, t, op) == Dispatch(s, t, op.size)
  {
  }

  lemma SameRoom(s: State, s': State, t: Tunables)
    requires s.batching == s'.batching && s.starved == s'.starved <= t.writesStarved
    ensures Room(s, t) == Room(s', t)
  {
  }

  /** Whatever is added, merged or removed in between: while a write is pending, at most
      (writes_starved + 1) * max(1, fifo_batch) dispatches in a row hand out reads. */
  lemma WritesAreNotStarved(s: State, t: Tunables, ops: seq<Op>)
    requires Inv(s, t) && Legal(s, t, ops) && WritesWait(s, t, ops)
    ensures Dispatches(ops) <= (t.writesStarved + 1) * AtLeastOne(t.fifoBatch)
  {
    WaitIsBounded(s, t, ops);
    RoomIsBounded(s, t);
  }

  lemma RoomIsBounded(s: State, t: Tunables)
    requires s.starved <= t.writesStarved
    ensures Room(s, t) <= (t.writesStarved + 1) * AtLeastOne(t.fifoBatch)
  {
  }

}
