/** struct cfq_data: dispatching in place. */
module CfqDatas {
  import opened Options
  import opened SortTree
  import opened Cfq
  import opened CfqTurns

  class CfqData {
    var queues: seq<Cfqq>
    var service: Service
    var active: Option<nat>
    /** What elv_dispatch_sort was given, in order. */
    ghost var handed: seq<Request>

    ghost function Abs(): State
      reads this
    {
      State(queues, service, active)
    }

    ghost predicate Valid()
      reads this
    {
      Inv(Abs())
    }

    /** Every request ever handed out or still queued. */
    ghost function Known(): multiset<Request>
      reads `queues, `handed
    {
      AllQueued(queues) + multiset(handed)
    }

    constructor ()
      ensures Valid() && Abs() == State([], Service([], None, 0), None) && Known() == multiset{}
    {
      queues, service, active, handed := [], Service([], None, 0), None, [];
    }

    /** cfq_dispatch_insert: off the internal lists, on to the dispatch list. */
    method DispatchInsert(k: nat, rq: Request, p: Policy)
      requires Valid() && k < |queues| && rq in queues[k].sort
      modifies `queues, `service, `handed
      ensures Valid() && handed == old(handed) + [rq] && |queues| == |old(queues)|
      ensures queues[k].sort == Without(old(queues)[k].sort, IndexOf(old(queues)[k].sort, rq))
      ensures forall j :: 0 <= j < |queues| && j != k ==> queues[j] == old(queues)[j]
      ensures Known() == old(Known())
    {
      ghost var s := Abs();
      RemoveInOrder(s, k, rq, p);
      QueueWasOnRr(queues[k], rq);
      hide Inv, Removed, Without, AllQueued;
      var q := Removed(queues[k], rq, p.prefer);
      queues := queues[k := q];
      if q.onRr && q.sort == [] && service.busy > 0 {
        queues := queues[k := q.(onRr := false)];
        service := TreeErase(service, k).(busy := service.busy - 1);
      }
      assert Abs() == RemoveRequest(s, k, rq, p);
      handed := handed + [rq];
      HandedOver(s.queues, queues, k, rq, old(handed));
    }

    /** cfq_rb_first on the service tree. */
    method RbFirst() returns (k: Option<nat>)
      requires Valid()
      modifies `service
      ensures Valid() && service == First(old(service))
      ensures k == None <==> service.tree == []
      ensures k.Some? ==> k.value == service.tree[0] && k.value < |queues| && queues[k.value].sort != []
    {
      NewQueue(Abs());
      if service.left == None && service.tree != [] { service := service.(left := Some(service.tree[0])); }
      k := service.left;
      if service.tree != [] {
        assert service.tree[0] in service.tree;
        QueueFacts(queues[service.tree[0]]);
      }
    }

    /** cfq_slice_expired: the active queue goes to its new place and is no longer active. */
    method SliceExpired(place: nat)
      requires Valid()
      modifies `service, `active
      ensures Valid() && active == None && service.tree == old(Expired(Abs(), place)) && service.busy == old(service).busy
      ensures Abs() == if old(active).Some? then Resort(old(Abs()), old(active).value, place).(active := None) else old(Abs())
    {
      if active.Some? {
        ResortKeeps(Abs(), active.value, place);
        if queues[active.value].onRr { service := TreeInsert(TreeErase(service, active.value), active.value, place); }
        active := None;
      }
    }

    /** cfq_select_queue. */
    method SelectQueue(c: Slice) returns (k: Option<nat>)
      requires Valid()
      modifies `service, `active
      ensures Valid() && (Abs(), k) == Cfq.SelectQueue(old(Abs()), c)
      ensures !old(Turn(Abs(), c)) ==> active == old(active) && service == old(service)
      ensures !old(Turn(Abs(), c)) ==> k == if queues[active.value].sort == [] then None else active
      ensures old(Turn(Abs(), c)) ==> service.tree == old(Expired(Abs(), c.place))
      ensures old(Turn(Abs(), c)) ==> active == k == if service.tree == [] then None else Some(service.tree[0])
      ensures k.Some? ==> k.value < |queues| && queues[k.value].sort != []
    {
      ghost var s := Abs();
      SelectedHasRequests(s, c);
      SelectionRule(s, c);
      hide QueueOk, TreeInsert, TreeErase, Linked, Resort, First, Drop, Placed;
      if active.Some? && !c.used {
        if queues[active.value].sort != [] { return active; }
        if c.wait { return None; }
      }
      if active.Some? { SliceExpired(c.place); }
      k := RbFirst();
      active := k;
    }

    /** __cfq_forced_dispatch_cfqq: everything the queue has goes out. */
    method ForcedDispatchCfqq(k: nat, p: Policy) returns (dispatched: nat)
      requires Valid() && k < |queues|
      modifies `queues, `service, `handed
      ensures Valid() && |queues| == |old(queues)| && queues[k].sort == [] && queues[k].fifo == []
      ensures dispatched == |old(queues)[k].sort| && |handed| == |old(handed)| + dispatched && Known() == old(Known())
      ensures forall j :: 0 <= j < |queues| && j != k ==> queues[j] == old(queues)[j]
    {
      dispatched := 0;
      QueueFacts(queues[k]);
      while queues[k].next.Some?
        invariant Valid() && |queues| == |old(queues)| && Known() == old(Known())
        invariant dispatched + |queues[k].sort| == |old(queues)[k].sort| && |handed| == |old(handed)| + dispatched
        invariant forall j :: 0 <= j < |queues| && j != k ==> queues[j] == old(queues)[j]
        decreases |queues[k].sort|
      {
        assert QueueOk(queues[k]);
        NextIsQueued(queues[k]);
        WithoutLength(queues[k].sort, IndexOf(queues[k].sort, queues[k].next.value));
        DispatchInsert(k, queues[k].next.value, p);
        dispatched := dispatched + 1;
      }
      assert QueueOk(queues[k]);
      NothingLeft(queues[k]);
    }

    /** cfq_forced_dispatch: ends with no queue on the tree and nothing queued anywhere. */
    method ForcedDispatch(p: Policy, place: nat) returns (dispatched: nat)
      requires Valid()
      modifies `queues, `service, `active, `handed
      ensures Valid() && service.busy == 0 && service.tree == [] && active == None
      ensures forall k :: 0 <= k < |queues| ==> queues[k].sort == [] && queues[k].fifo == []
      ensures |handed| == |old(handed)| + dispatched && multiset(handed) == old(Known())
    {
      hide Inv, AllQueued, Pending;
      dispatched := 0;
      var k: Option<nat> := RbFirst();
      while k.Some?
        invariant Valid() && |handed| == |old(handed)| + dispatched && Known() == old(Known())
        invariant k.Some? ==> k.value < |queues| && queues[k.value].sort != []
        invariant k == None <==> service.tree == []
        decreases Pending(queues)
      {
        ghost var before := queues;
        var n := ForcedDispatchCfqq(k.value, p);
        PendingDrops(before, queues, k.value);
        dispatched := dispatched + n;
        k := RbFirst();
      }
      // cfq_slice_expired has no queue to move any more
      if active.Some? { EmptyTreeStays(Abs(), place); }
      SliceExpired(place);
      AllEmpty(Abs());
      NothingQueued(queues);
    }
  }

  lemma NextIsQueued(q: Cfqq)
    requires QueueOk(q) && q.next.Some?
    ensures q.next.value in q.sort
  {
  }

  lemma NothingLeft(q: Cfqq)
    requires QueueOk(q) && (q.next == None || !q.onRr)
    ensures q.sort == [] && q.fifo == []
  {
    assert |multiset(q.fifo)| == |multiset(q.sort)|;
  }

  /** A queue that is not on the tree is not moved. */
  lemma EmptyTreeStays(s: State, place: nat)
    requires Inv(s) && s.active.Some? && s.service.tree == []
    ensures s.active.value < |s.queues| && Resort(s, s.active.value, place) == s && Inv(s.(active := None))
  {
  }

  lemma AllEmpty(s: State)
    requires Inv(s) && s.service.tree == []
    ensures s.service.busy == 0 && forall k :: 0 <= k < |s.queues| ==> s.queues[k].sort == [] && s.queues[k].fifo == []
  {
    forall k | 0 <= k < |s.queues| ensures s.queues[k].sort == [] && s.queues[k].fifo == [] {
      assert QueueOk(s.queues[k]);
      assert k !in s.service.tree;
      NothingLeft(s.queues[k]);
    }
  }

  function AllQueued(queues: seq<Cfqq>): multiset<Request> {
    if queues == [] then multiset{} else multiset(queues[0].sort) + AllQueued(queues[1..])
  }

  lemma {:induction false} OneLess(a: seq<Cfqq>, b: seq<Cfqq>, k: nat, rq: Request)
    requires |a| == |b| && k < |a| && forall j :: 0 <= j < |a| && j != k ==> a[j] == b[j]
    requires multiset(a[k].sort) == multiset(b[k].sort) + multiset{rq}
    ensures AllQueued(a) == AllQueued(b) + multiset{rq}
    decreases |a|
  {
    if k > 0 {
      assert a[0] == b[0] && a[1..][k - 1] == a[k] && b[1..][k - 1] == b[k];
      OneLess(a[1..], b[1..], k - 1, rq);
    } else {
      assert a[1..] == b[1..];
    }
    Regroup(multiset(b[0].sort), AllQueued(b[1..]), multiset{rq});
  }

  lemma Regroup(x: multiset<Request>, y: multiset<Request>, z: multiset<Request>)
    ensures x + y + z == x + z + y == x + (y + z)
  {
  }

  lemma HandedOver(a: seq<Cfqq>, b: seq<Cfqq>, k: nat, rq: Request, handed: seq<Request>)
    requires |a| == |b| && k < |a| && forall j :: 0 <= j < |a| && j != k ==> a[j] == b[j]
    requires rq in a[k].sort && b[k].sort == Without(a[k].sort, IndexOf(a[k].sort, rq))
    ensures AllQueued(a) + multiset(handed) == AllQueued(b) + multiset(handed + [rq])
  {
    WithoutCounts(a[k].sort, IndexOf(a[k].sort, rq));
    hide AllQueued, Without, IndexOf;
    assert multiset(a[k].sort) == multiset(b[k].sort) + multiset{rq};
    OneLess(a, b, k, rq);
    assert multiset(handed + [rq]) == multiset(handed) + multiset{rq};
    Regroup(AllQueued(b), multiset(handed), multiset{rq});
  }

  lemma {:induction false} NothingQueued(queues: seq<Cfqq>)
    requires forall k :: 0 <= k < |queues| ==> queues[k].sort == []
    ensures AllQueued(queues) == multiset{}
    decreases |queues|
  {
    if queues != [] { NothingQueued(queues[1..]); }
  }

  /** How many queues have requests. */
  function Pending(queues: seq<Cfqq>): nat { if queues == [] then 0 else (if queues[0].sort != [] then 1 else 0) + Pending(queues[1..]) }

  lemma {:induction false} PendingDrops(a: seq<Cfqq>, b: seq<Cfqq>, k: nat)
    requires |a| == |b| && k < |a| && a[k].sort != [] && b[k].sort == []
    requires forall j :: 0 <= j < |a| && j != k ==> a[j] == b[j]
    ensures Pending(b) < Pending(a)
    decreases |a|
  {
    if k > 0 {
      PendingDrops(a[1..], b[1..], k - 1);
    } else {
      assert a[1..] == b[1..];
    }
  }
}
