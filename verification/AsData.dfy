/** The anticipatory scheduler's state (struct as_data) and the functions that change it. FIFO clocks
    and anticipation heuristics enter as answers given by the caller. */
module AsSchedulers {
  import opened Options
  import opened SortTree
  import opened Anticipatory
  import opened Lanes = AnticipatoryLanes
  import Batches = AsBatches

  lemma RemoveLane(l: Lane, rq: Request, d: bool)
    requires LaneOk(l, d) && rq in l.sort
    ensures LaneOk(RemoveQueued(l, rq), d) && (Best(l) ==> Best(RemoveQueued(l, rq)))
  {
    RemoveKeeps(l, rq);
    hide Linked, Best, FindNext, IndexOf;
  }

  lemma AddLane(l: Lane, rq: Request, aliasSize: nat, d: bool)
    requires LaneOk(l, d) && rq.sync == d
    ensures LaneOk(Lanes.AddRequest(l, rq, aliasSize), d)
  {
    hide FindNext, IndexOf, Without, Inserted, PlaceFor;
    AddKeeps(l, rq, aliasSize);
    var m := if HasAlias(l.sort, rq.sector) then Lanes.MoveToDispatch(l, Alias(l.sort, rq.sector), aliasSize) else l;
    if HasAlias(l.sort, rq.sector) { DispatchLane(l, Alias(l.sort, rq.sector), aliasSize, d); }
    forall x ensures x in Inserted(m.sort, rq) <==> x in m.sort || x == rq { InInserted(m.sort, rq, x); }
  }

  method Dispatched(l: Lane, rq: Request, size: nat, ghost d: bool) returns (m: Lane)
    requires LaneOk(l, d) && rq in l.sort
    ensures m == Lanes.MoveToDispatch(l, rq, size) && LaneOk(m, d) && Cached(m)
    ensures |m.sort| == |l.sort| - 1 && multiset(l.sort) == multiset(m.sort) + multiset{rq}
  {
    hide Lanes.MoveToDispatch, LaneOk, FindNext, Without, Dropped;
    DispatchLane(l, rq, size, d);
    var i := IndexOf(l.sort, rq);
    m := l.(last := rq.sector + size);
    m := m.(next := FindNext(m.last, m.sort, i));
    m := m.(fifo := Dropped(m.fifo, rq));
    m := m.(sort := Without(m.sort, i));
  }

  method Removed(l: Lane, rq: Request) returns (m: Lane)
    requires rq in l.sort
    ensures m == RemoveQueued(l, rq)
  {
    hide FindNext, Without, Dropped;
    var i := IndexOf(l.sort, rq);
    m := l;
    if m.next == Some(rq) { m := m.(next := FindNext(m.last, m.sort, i)); }
    m := m.(fifo := Dropped(m.fifo, rq));
    m := m.(sort := Without(m.sort, i));
  }

  class AsData {
    const tunables: Batches.Tunables
    /** Tree, FIFO, next_rq and last_sector of REQ_SYNC and of REQ_ASYNC. */
    var syncLane: Lane
    var asyncLane: Lane
    /** batch_data_dir is REQ_SYNC. */
    var batchSync: bool
    var changedBatch: bool
    var newBatch: bool
    var currentWriteCount: nat
    var writeBatchCount: nat
    var writeBatchIdled: bool
    var currentBatchExpires: nat
    var jiffies: nat
    /** The status is ANTIC_WAIT_REQ or ANTIC_WAIT_NEXT. */
    var anticipating: bool
    var nrDispatched: nat
    /** What elv_dispatch_sort was given, in order. */
    ghost var handed: seq<Request>

    ghost function Abs(): Batches.State
      reads this
    {
      Batches.State(syncLane, asyncLane,
                    Batches.Batch(batchSync, changedBatch, newBatch, currentWriteCount, writeBatchCount, writeBatchIdled, currentBatchExpires),
                    anticipating, nrDispatched, jiffies)
    }

    ghost predicate LanesOk()
      reads `syncLane, `asyncLane
    {
      LaneOk(syncLane, true) && LaneOk(asyncLane, false)
    }

    /** A change of batch waits for something in flight, and a new batch is one of reads that has begun. */
    predicate BatchOk()
      reads `batchSync, `changedBatch, `newBatch, `writeBatchCount, `nrDispatched
    {
      && (changedBatch ==> nrDispatched > 0 && !newBatch)
      && (newBatch ==> batchSync)
      && writeBatchCount >= 1
    }

    ghost predicate Valid()
      reads this
      ensures Valid() <==> Batches.Inv(Abs())
    {
      LanesOk() && BatchOk()
    }

    function LaneOf(d: bool): Lane
      reads `syncLane, `asyncLane
    {
      if d then syncLane else asyncLane
    }

    /** Every request ever handed out or still queued. */
    ghost function Known(): multiset<Request>
      reads `syncLane, `asyncLane, `handed
    {
      multiset(syncLane.sort) + multiset(asyncLane.sort) + multiset(handed)
    }

    constructor (t: Batches.Tunables)
      ensures Valid() && Best(syncLane) && Best(asyncLane) && Known() == multiset{}
      ensures tunables == t && Abs() == Batches.Initial(t)
    {
      tunables := t;
      syncLane, asyncLane := Lane([], [], None, 0), Lane([], [], None, 0);
      batchSync, changedBatch, newBatch := true, false, false;
      currentWriteCount, writeBatchCount, writeBatchIdled := 0, if t.writeBatch / 10 < 2 then 2 else t.writeBatch / 10, false;
      currentBatchExpires, jiffies := t.readBatch, 0;
      anticipating, nrDispatched, handed := false, 0, [];
    }

    method MoveToDispatch(rq: Request, size: nat)
      requires LanesOk() && rq in LaneOf(rq.sync).sort
      modifies `syncLane, `asyncLane, `anticipating, `currentWriteCount, `nrDispatched, `handed
      ensures LanesOk() && (old(BatchOk()) ==> BatchOk()) && Known() == old(Known())
      ensures LaneOf(rq.sync) == Lanes.MoveToDispatch(old(LaneOf(rq.sync)), rq, size)
      ensures LaneOf(!rq.sync) == old(LaneOf(!rq.sync))
      ensures |LaneOf(rq.sync).sort| == old(|LaneOf(rq.sync).sort|) - 1 && Cached(LaneOf(rq.sync))
      ensures handed == old(handed) + [rq] && nrDispatched == old(nrDispatched) + 1 && !anticipating
      ensures currentWriteCount == if rq.sync || old(currentWriteCount) == 0 then old(currentWriteCount) else old(currentWriteCount) - 1
    {
      hide Lanes.MoveToDispatch, LaneOk, Cached;
      anticipating := false;
      if !rq.sync && currentWriteCount != 0 { currentWriteCount := currentWriteCount - 1; }
      var l := Dispatched(LaneOf(rq.sync), rq, size, rq.sync);
      HandedOut(multiset(LaneOf(rq.sync).sort), multiset(l.sort), multiset(LaneOf(!rq.sync).sort), handed, rq);
      if rq.sync { syncLane := l; } else { asyncLane := l; }
      nrDispatched := nrDispatched + 1;
      handed := handed + [rq];
    }

    method RemoveQueuedRequest(rq: Request)
      requires Valid() && rq in LaneOf(rq.sync).sort
      modifies `syncLane, `asyncLane
      ensures Valid() && LaneOf(!rq.sync) == old(LaneOf(!rq.sync))
      ensures LaneOf(rq.sync) == RemoveQueued(old(LaneOf(rq.sync)), rq)
      ensures Best(old(LaneOf(rq.sync))) ==> Best(LaneOf(rq.sync))
    {
      hide LaneOk, Best, RemoveQueued;
      RemoveLane(LaneOf(rq.sync), rq, rq.sync);
      var l := Removed(LaneOf(rq.sync), rq);
      if rq.sync { syncLane := l; } else { asyncLane := l; }
    }

    /** as_add_request; `aliasSize` is the length of a queued request at the same sector, if there is one. */
    method AddRequest(rq: Request, aliasSize: nat)
      requires Valid()
      modifies `syncLane, `asyncLane, `anticipating, `currentWriteCount, `nrDispatched, `handed
      ensures Valid() && LaneOf(!rq.sync) == old(LaneOf(!rq.sync))
      ensures LaneOf(rq.sync) == Lanes.AddRequest(old(LaneOf(rq.sync)), rq, aliasSize)
      ensures Known() == old(Known()) + multiset{rq}
    {
      hide LaneOk, Lanes.MoveToDispatch, Inserted, HasAlias, Alias;
      ghost var before := LaneOf(rq.sync);
      AddLane(before, rq, aliasSize, rq.sync);
      SortedTree(before, rq.sync);
      var l := MakeRoom(LaneOf(rq.sync), rq.sector, aliasSize);
      InsertedCounts(l.sort, rq);
      Exchanged(multiset(before.sort), multiset(LaneOf(!rq.sync).sort), old(handed), handed, multiset(l.sort), multiset{}, multiset{rq});
      l := l.(sort := Inserted(l.sort, rq));
      l := l.(fifo := l.fifo + [rq]);
      l := l.(next := ChooseReq(l.last, Some(rq), l.next));
      if rq.sync { syncLane := l; } else { asyncLane := l; }
    }

    /** as_merged_request after a front merge of rq, which now starts at s: tree and FIFO stay in step, and
        nothing is lost but, in the one case, the cache. */
    method MergedRequest(rq: Request, s: nat, aliasSize: nat)
      requires Valid() && rq in LaneOf(rq.sync).sort
      modifies `syncLane, `asyncLane, `anticipating, `currentWriteCount, `nrDispatched, `handed
      ensures Valid() && LaneOf(!rq.sync) == old(LaneOf(!rq.sync))
      ensures LaneOf(rq.sync) == Lanes.FrontMerge(old(LaneOf(rq.sync)), rq, s, aliasSize)
      ensures Cached(LaneOf(rq.sync)) <==> KeepsCache(old(LaneOf(rq.sync)), rq, s)
      ensures Known() + multiset{rq} == old(Known()) + multiset{rq.(sector := s)}
    {
      hide LaneOk, Lanes.MoveToDispatch, Inserted, HasAlias, Alias, Renamed, Without, IndexOf, Linked, KeepsCache;
      ghost var before := LaneOf(rq.sync);
      FrontLane(before, rq, s, aliasSize, rq.sync);
      SortedRest(before, rq, s, rq.sync);
      var rq' := rq.(sector := s);
      var l := LaneOf(rq.sync);
      var i := IndexOf(l.sort, rq);
      WithoutCounts(l.sort, i);
      l := l.(sort := Without(l.sort, i));
      // the same request elsewhere, with its new sector
      l := l.(fifo := Renamed(l.fifo, rq, rq'), next := if l.next == Some(rq) then Some(rq') else l.next);
      l := MakeRoom(l, s, aliasSize);
      InsertedCounts(l.sort, rq');
      Exchanged(multiset(before.sort), multiset(LaneOf(!rq.sync).sort), old(handed), handed, multiset(l.sort), multiset{rq}, multiset{rq'});
      l := l.(sort := Inserted(l.sort, rq'));
      if rq.sync { syncLane := l; } else { asyncLane := l; }
    }

    /** as_merged_requests: `other`, absorbed into rq, is forgotten. */
    method MergedRequests(rq: Request, other: Request, sooner: bool)
      requires Valid() && rq.sync == other.sync && rq in LaneOf(rq.sync).sort && other in LaneOf(rq.sync).sort
      modifies `syncLane, `asyncLane
      ensures Valid() && LaneOf(!rq.sync) == old(LaneOf(!rq.sync))
      ensures LaneOf(rq.sync) == Lanes.MergedRequests(old(LaneOf(rq.sync)), rq, other, sooner)
      ensures old(Cached(LaneOf(rq.sync))) ==> Cached(LaneOf(rq.sync))
      ensures old(Best(LaneOf(rq.sync))) ==> Best(LaneOf(rq.sync))
      ensures Known() + multiset{other} == old(Known())
    {
      hide LaneOk, RemoveQueued, MovedBehind, Best, Without, IndexOf;
      ghost var before := LaneOf(rq.sync);
      MergedLane(before, rq, other, sooner, rq.sync);
      ghost var rest := Lanes.MergedRequests(before, rq, other, sooner).sort;
      Exchanged(multiset(before.sort), multiset(LaneOf(!rq.sync).sort), handed, handed, multiset(rest), multiset{other}, multiset{});
      var l := LaneOf(rq.sync);
      if sooner { l := l.(fifo := MovedBehind(l.fifo, rq, other)); }
      l := Removed(l, other);
      if rq.sync { syncLane := l; } else { asyncLane := l; }
    }

    /** The loop of as_add_rq_rb for a request that is not in the tree: it runs once at most. */
    method MakeRoom(t: Lane, s: nat, aliasSize: nat) returns (l: Lane)
      requires Sorted(t.sort)
      modifies `anticipating, `currentWriteCount, `nrDispatched, `handed
      ensures HasAlias(t.sort, s) ==> Alias(t.sort, s) in t.sort
      ensures l == if HasAlias(t.sort, s) then Lanes.MoveToDispatch(t, Alias(t.sort, s), aliasSize) else t
      ensures multiset(l.sort) + multiset(handed) == multiset(t.sort) + multiset(old(handed))
      ensures nrDispatched >= old(nrDispatched)
    {
      hide Lanes.MoveToDispatch, HasAlias, Alias, Sorted;
      if HasAlias(t.sort, s) { AliasMoves(t, s, aliasSize); }
      l := t;
      while HasAlias(l.sort, s)
        invariant l == t || (HasAlias(t.sort, s) && !HasAlias(l.sort, s)
                             && l == Lanes.MoveToDispatch(t, Alias(t.sort, s), aliasSize))
        invariant multiset(l.sort) + multiset(handed) == multiset(t.sort) + multiset(old(handed))
        invariant nrDispatched >= old(nrDispatched)
        decreases HasAlias(l.sort, s)
      {
        var alias := Alias(l.sort, s);
        anticipating := false;
        if !alias.sync && currentWriteCount != 0 { currentWriteCount := currentWriteCount - 1; }
        l := Lanes.MoveToDispatch(l, alias, aliasSize);
        nrDispatched, handed := nrDispatched + 1, handed + [alias];
      }
    }

    /** The loop of a forced dispatch for one direction: it ends with nothing queued exactly when
        something was cached, if anything was queued, at its start; otherwise it does nothing. */
    method Drain(d: bool, size: Request -> nat) returns (dispatched: nat)
      requires Valid()
      modifies `syncLane, `asyncLane, `anticipating, `currentWriteCount, `nrDispatched, `handed
      ensures Valid() && LaneOf(!d) == old(LaneOf(!d)) && Known() == old(Known())
      ensures LaneOf(d).sort == [] <==> old(Cached(LaneOf(d)))
      ensures old(Cached(LaneOf(d))) ==> LaneOf(d).fifo == [] && dispatched == |old(LaneOf(d).sort)|
      ensures !old(Cached(LaneOf(d))) ==> LaneOf(d) == old(LaneOf(d)) && dispatched == 0
    {
      hide LaneOk, BatchOk, Lanes.MoveToDispatch;
      dispatched := 0;
      LaneFacts(LaneOf(d), d);
      while LaneOf(d).next.Some?
        invariant Valid() && LaneOf(!d) == old(LaneOf(!d)) && Known() == old(Known())
        invariant dispatched + |LaneOf(d).sort| == |old(LaneOf(d).sort)|
        invariant Cached(LaneOf(d)) <==> old(Cached(LaneOf(d)))
        invariant !old(Cached(LaneOf(d))) ==> LaneOf(d) == old(LaneOf(d)) && dispatched == 0
        decreases |LaneOf(d).sort|
      {
        var rq := LaneOf(d).next.value;
        FifoFacts(LaneOf(d), d);
        FifoIsQueued(LaneOf(d), d, rq);
        MoveToDispatch(rq, size(rq));
        dispatched := dispatched + 1;
      }
      LaneFacts(LaneOf(d), d);
    }

    /** Forced dispatch hands out each request of a direction once, exactly when that direction has
        something cached or nothing queued; so it empties the scheduler exactly when both have. */
    method ForcedDispatch(size: Request -> nat) returns (dispatched: nat)
      requires Valid()
      modifies this
      ensures Valid() && Known() == old(Known())
      ensures (syncLane.sort == [] <==> old(Cached(syncLane))) && (asyncLane.sort == [] <==> old(Cached(asyncLane)))
      ensures dispatched == (if old(Cached(syncLane)) then |old(syncLane.sort)| else 0)
                          + (if old(Cached(asyncLane)) then |old(asyncLane.sort)| else 0)
      ensures multiset(handed) == old(Known()) <==> old(Cached(syncLane) && Cached(asyncLane))
    {
      batchSync, changedBatch, newBatch := true, false, false;
      var n := Drain(true, size);
      var m := Drain(false, size);
      dispatched := n + m;
      AllHanded(syncLane.sort, asyncLane.sort, handed);
    }

    predicate BatchExpired()
      reads this
    {
      !changedBatch && !newBatch && (jiffies > currentBatchExpires || (!batchSync && currentWriteCount == 0))
    }

    /** The choice of batch and request: the code's own BUG branch and its uses of an empty tree or
        an empty FIFO are never reached. With both directions queued and the batch expired, the other
        direction is chosen, and its oldest request; while the batch runs, something is cached, no
        FIFO has expired and nothing is anticipated, the cached request of its direction. */
    method SelectRequest(a: Batches.Answers) returns (chosen: Option<Request>)
      requires Valid()
      modifies `batchSync, `changedBatch, `newBatch, `currentWriteCount, `writeBatchIdled, `anticipating, `currentBatchExpires
      ensures (Abs(), chosen) == Batches.Select(old(Abs()), tunables, a)
      ensures chosen.Some? ==> LaneOf(batchSync).fifo != [] && chosen.value in LaneOf(batchSync).fifo
      ensures chosen.Some? ==> chosen.value == LaneOf(batchSync).fifo[0] || chosen == LaneOf(batchSync).next
      ensures chosen == None ==> a.anticipate || old(anticipating || changedBatch || (syncLane.fifo == [] && asyncLane.fifo == []))
      ensures old(!anticipating && syncLane.fifo != [] && asyncLane.fifo != [] && BatchExpired()) ==>
                batchSync == !old(batchSync) && changedBatch && !newBatch && chosen == Some(LaneOf(batchSync).fifo[0])
      ensures old(!anticipating && !changedBatch && !(syncLane.fifo != [] && asyncLane.fifo != [] && BatchExpired())
                  && LaneOf(batchSync).next.Some?) && !a.anticipate && !a.fifoExpired && !a.fifoExpiredLater ==>
                batchSync == old(batchSync) && !changedBatch && newBatch == old(newBatch) && chosen == LaneOf(batchSync).next
    {
      hide LaneOk;
      FifoFacts(syncLane, true);
      FifoFacts(asyncLane, false);
      var anyReads, anyWrites := syncLane.fifo != [], asyncLane.fifo != [];
      if !batchSync && !anyReads && (currentWriteCount == 0 || !anyWrites) { writeBatchIdled := true; }
      if !(anyReads || anyWrites) || anticipating || changedBatch { return None; }
      chosen := None;
      if !(anyReads && anyWrites && BatchExpired()) {
        if batchSync && a.anticExpire {
          if a.fifoExpired && anyReads { return Some(syncLane.fifo[0]); }
          if a.anticipate {
            anticipating := true;
            return None;
          }
        }
        chosen := LaneOf(batchSync).next;
        if chosen.Some? && anyReads && !anyWrites { currentBatchExpires := jiffies + tunables.readBatch; }
      }
      if chosen == None {
        if anyReads && !(anyWrites && batchSync) {
          if !batchSync { changedBatch := true; }
          batchSync := true;
        } else {
          if batchSync { changedBatch, newBatch := true, false; }
          batchSync := false;
          currentWriteCount, writeBatchIdled := writeBatchCount, false;
        }
        chosen := Some(LaneOf(batchSync).fifo[0]);
      }
      if a.fifoExpiredLater { chosen := Some(LaneOf(batchSync).fifo[0]); }
    }

    /** A dispatch that is not forced: a request is handed out exactly when the call answers 1, it
        is the cached one or the oldest of its direction, and with nothing in flight and no
        anticipation a call with requests queued hands one out. */
    method DispatchRequest(a: Batches.Answers, size: Request -> nat) returns (dispatched: nat)
      requires Valid()
      modifies this
      ensures Valid() && Known() == old(Known()) && dispatched <= 1
      ensures var (s, rq) := Batches.Dispatch(old(Abs()), tunables, a, size);
              Abs() == s && handed == if rq == None then old(handed) else old(handed) + [rq.value]
      ensures dispatched == |handed| - |old(handed)|
      ensures dispatched == 1 ==> !changedBatch
      ensures dispatched == 1 ==>
                var rq := handed[|handed| - 1]; var l := if batchSync then old(syncLane) else old(asyncLane);
                rq.sync == batchSync && l.fifo != [] && (rq == l.fifo[0] || Some(rq) == l.next)
      ensures old(!anticipating && nrDispatched == 0 && (syncLane.fifo != [] || asyncLane.fifo != [])) ==>
                a.anticipate || dispatched == 1
    {
      hide LaneOk, Batches.Select, Batches.MoveToDispatch;
      Batches.SelectedIsQueued(Abs(), tunables, a);
      Batches.DispatchKeeps(Abs(), tunables, a, size);
      var chosen := SelectRequest(a);
      if chosen == None { return 0; }
      dispatched := Commit(chosen.value, size);
    }

    /** The end of as_dispatch_request: a change of batch waits until nothing is in flight. */
    method Commit(rq: Request, size: Request -> nat) returns (dispatched: nat)
      requires LanesOk() && rq in LaneOf(batchSync).fifo
      modifies `syncLane, `asyncLane, `anticipating, `currentWriteCount, `nrDispatched, `handed, `changedBatch, `newBatch,
               `currentBatchExpires
      ensures LanesOk() && Known() == old(Known()) && batchSync == old(batchSync) == rq.sync && rq in old(LaneOf(rq.sync)).sort
      ensures dispatched == if old(changedBatch && nrDispatched != 0) then 0 else 1
      ensures handed == if dispatched == 0 then old(handed) else old(handed) + [rq]
      ensures dispatched == 0 ==> Abs() == old(Abs())
      ensures dispatched == 1 ==>
                !changedBatch
                && Abs() == Batches.MoveToDispatch(old(Abs()).(b := Batches.Begun(old(Abs()).b, jiffies, tunables)), rq, size(rq))
    {
      hide LaneOk, Lanes.MoveToDispatch, Known;
      FifoIsQueued(LaneOf(batchSync), batchSync, rq);
      if changedBatch {
        if nrDispatched != 0 { return 0; }
        if batchSync { newBatch := true; } else { currentBatchExpires := jiffies + tunables.writeBatch; }
        changedBatch := false;
      }
      MoveToDispatch(rq, size(rq));
      dispatched := 1;
    }

    /** as_completed_request, as far as the batch goes: the last request in flight lets a change of batch
        take effect, and the first one of a new batch of reads starts its clock. */
    method CompletedRequest(sync: bool)
      requires Valid() && nrDispatched > 0
      modifies `changedBatch, `newBatch, `currentBatchExpires, `nrDispatched, `writeBatchCount
      ensures Valid() && Abs() == Batches.Completed(old(Abs()), tunables, sync)
      ensures nrDispatched == 0 ==> !changedBatch
    {
      hide LaneOk;
      if changedBatch && nrDispatched == 1 {
        currentBatchExpires := jiffies + (if batchSync then tunables.readBatch else tunables.writeBatch);
        changedBatch := false;
        if batchSync { newBatch := true; }
      }
      nrDispatched := nrDispatched - 1;
      if newBatch && batchSync == sync {
        UpdateWriteBatch();
        currentBatchExpires := jiffies + tunables.readBatch;
        newBatch := false;
      }
    }

    /** update_write_batch. */
    method UpdateWriteBatch()
      modifies `writeBatchCount
      ensures writeBatchCount == Batches.Resized(old(Abs()).b, jiffies, tunables) >= 1
    {
      var batch := tunables.writeBatch;
      var writeTime := jiffies - currentBatchExpires + batch;
      if writeTime < 0 { writeTime := 0; }
      var count: int := writeBatchCount;
      if writeTime > batch && !writeBatchIdled {
        if writeTime > batch * 3 { count := count / 2; } else { count := count - 1; }
      } else if writeTime < batch && currentWriteCount == 0 {
        if batch > writeTime * 3 { count := count * 2; } else { count := count + 1; }
      }
      if count < 1 { count := 1; }
      writeBatchCount := count;
    }
  }

  lemma HandedOut(tree: multiset<Request>, rest: multiset<Request>, other: multiset<Request>, h: seq<Request>, rq: Request)
    requires tree == rest + multiset{rq}
    ensures rest + other + multiset(h + [rq]) == tree + other + multiset(h)
    ensures other + rest + multiset(h + [rq]) == other + tree + multiset(h)
  {
    assert multiset(h + [rq]) == multiset(h) + multiset{rq};
  }

  lemma AllHanded(a: seq<Request>, b: seq<Request>, handed: seq<Request>)
    ensures multiset(handed) == multiset(a) + multiset(b) + multiset(handed) <==> a == [] && b == []
  {
    if a != [] || b != [] {
      assert |multiset(a) + multiset(b) + multiset(handed)| == |a| + |b| + |handed|;
    }
  }

  lemma FrontLane(l: Lane, rq: Request, s: nat, aliasSize: nat, d: bool)
    requires LaneOk(l, d) && rq in l.sort
    ensures LaneOk(FrontMerge(l, rq, s, aliasSize), d) && (Cached(FrontMerge(l, rq, s, aliasSize)) <==> KeepsCache(l, rq, s))
  {
    hide Linked, KeepsCache, IndexOf, Cached, AddToTree, Without, Renamed;
    FrontMergeKeeps(l, rq, s, aliasSize);
    RestOf(l.sort, rq);
    TreeMembers(TakenOut(l, rq, s), rq.(sector := s), aliasSize);
  }

  lemma RestOf(list: seq<Request>, rq: Request)
    requires rq in list
    ensures forall x :: x in Without(list, IndexOf(list, rq)) ==> x in list
  {
  }

  lemma TreeMembers(t: Lane, rq: Request, aliasSize: nat)
    ensures forall x :: x in AddToTree(t, rq, aliasSize).sort ==> x in t.sort || x == rq
  {
    hide Lanes.MoveToDispatch, HasAlias, Alias, Inserted;
    if HasAlias(t.sort, rq.sector) { AliasLeaves(t, rq.sector, aliasSize); }
    var m := if HasAlias(t.sort, rq.sector) then Lanes.MoveToDispatch(t, Alias(t.sort, rq.sector), aliasSize) else t;
    forall x ensures x in Inserted(m.sort, rq) <==> x in m.sort || x == rq { InInserted(m.sort, rq, x); }
  }

  lemma MergedLane(l: Lane, rq: Request, other: Request, sooner: bool, d: bool)
    requires LaneOk(l, d) && rq in l.sort && other in l.sort
    ensures var m := Lanes.MergedRequests(l, rq, other, sooner);
            && LaneOk(m, d) && (Cached(l) ==> Cached(m)) && (Best(l) ==> Best(m))
            && multiset{other} <= multiset(l.sort) && multiset(m.sort) == multiset(l.sort) - multiset{other}
  {
    hide Linked, Best, Cached, MovedBehind, Without, IndexOf, FindNext;
    MergeKeeps(l, rq, other, sooner);
    RestOf(l.sort, other);
    WithoutCounts(l.sort, IndexOf(l.sort, other));
    assert other in multiset(l.sort);
  }

  lemma SortedTree(l: Lane, d: bool)
    requires LaneOk(l, d)
    ensures Sorted(l.sort)
  {
  }

  /** `gone` leaves a tree, requests move from it to those handed out, and `come` enters it. */
  lemma Exchanged(tree: multiset<Request>, other: multiset<Request>, h: seq<Request>, h': seq<Request>, rest: multiset<Request>,
                  gone: multiset<Request>, come: multiset<Request>)
    requires gone <= tree && rest + multiset(h') == (tree - gone) + multiset(h)
    ensures rest + come + other + multiset(h') + gone == tree + other + multiset(h) + come
    ensures other + (rest + come) + multiset(h') + gone == other + tree + multiset(h) + come
  {
    assert tree == tree - gone + gone;
    assert rest + multiset(h') + gone == tree + multiset(h);
    assert rest + come + other + multiset(h') + gone == rest + multiset(h') + gone + other + come;
    assert other + (rest + come) == rest + come + other && other + tree == tree + other;
  }

  lemma SortedRest(l: Lane, rq: Request, s: nat, d: bool)
    requires LaneOk(l, d) && rq in l.sort
    ensures Sorted(TakenOut(l, rq, s).sort) && rq in multiset(l.sort)
  {
    WithoutSorted(l.sort, IndexOf(l.sort, rq));
  }

  /** Only what was in the tree before is there after. */
  lemma AliasLeaves(t: Lane, s: nat, aliasSize: nat)
    requires HasAlias(t.sort, s)
    ensures Alias(t.sort, s) in t.sort
    ensures forall x :: x in Lanes.MoveToDispatch(t, Alias(t.sort, s), aliasSize).sort ==> x in t.sort
  {
    hide FindNext, Dropped;
  }

  lemma AliasMoves(t: Lane, s: nat, aliasSize: nat)
    requires Sorted(t.sort) && HasAlias(t.sort, s)
    ensures Alias(t.sort, s) in t.sort
    ensures var m := Lanes.MoveToDispatch(t, Alias(t.sort, s), aliasSize);
            !HasAlias(m.sort, s) && multiset(t.sort) == multiset(m.sort) + multiset{Alias(t.sort, s)}
  {
    var a := Alias(t.sort, s);
    AliasGone(t.sort, s);
    DispatchForm(t, a, aliasSize);
    WithoutCounts(t.sort, IndexOf(t.sort, a));
    hide Lanes.MoveToDispatch, FindNext, Without;
    assert a in multiset(t.sort);
  }
}
