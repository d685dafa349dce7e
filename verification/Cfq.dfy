/** The fair-queueing scheduler's bookkeeping (block/cfq-iosched.c): per-process queues of requests,
    and the service tree of the queues that have any, with its cached leftmost node. The order of
    queues in the tree and the preference between two requests are left to the caller: what is
    proved holds for every such choice. */
module Cfq {
  import opened Options
  import opened SortTree

  // ---------- the service tree ----------

  /** The tree in order, the cached leftmost node, and busy_queues. */
  datatype Service = Service(tree: seq<nat>, left: Option<nat>, busy: nat)

  ghost predicate ServiceOk(v: Service) {
    && (forall i, j :: 0 <= i < j < |v.tree| ==> v.tree[i] != v.tree[j])
    && v.busy == |v.tree|
    && (v.left.Some? ==> v.tree != [] && v.left.value == v.tree[0])
  }

  function Place(p: nat, n: nat): nat { if p < n then p else n }

  /** The insertion of cfq_service_tree_add; the cache follows when the walk never turned right. */
  function TreeInsert(v: Service, k: nat, p: nat): Service {
    var i := Place(p, |v.tree|);
    v.(tree := v.tree[..i] + [k] + v.tree[i..], left := if i == 0 then Some(k) else v.left)
  }

  function Drop(tree: seq<nat>, k: nat): seq<nat> {
    if tree == [] then [] else if tree[0] == k then tree[1..] else [tree[0]] + Drop(tree[1..], k)
  }

  /** cfq_rb_erase. */
  function TreeErase(v: Service, k: nat): Service { v.(tree := Drop(v.tree, k), left := if v.left == Some(k) then None else v.left) }

  /** cfq_rb_first, which refills the cache. */
  function First(v: Service): Service { if v.left == None && v.tree != [] then v.(left := Some(v.tree[0])) else v }

  lemma {:induction false} DropIs(tree: seq<nat>, k: nat)
    requires forall i, j :: 0 <= i < j < |tree| ==> tree[i] != tree[j]
    ensures forall x :: x in Drop(tree, k) <==> x in tree && x != k
    ensures forall i, j :: 0 <= i < j < |Drop(tree, k)| ==> Drop(tree, k)[i] != Drop(tree, k)[j]
    ensures |Drop(tree, k)| == |tree| - if k in tree then 1 else 0
    ensures tree != [] && tree[0] != k ==> Drop(tree, k) != [] && Drop(tree, k)[0] == tree[0]
  {
    if tree != [] {
      var rest := tree[1..];
      assert tree == [tree[0]] + rest;
      assert tree[0] !in rest by { assert forall i :: 0 <= i < |rest| ==> rest[i] == tree[i + 1]; }
      DropIs(rest, k);
    }
  }

  lemma InsertKeeps(v: Service, k: nat, p: nat)
    requires ServiceOk(v.(busy := |v.tree|)) && k !in v.tree && v.busy == |v.tree| + 1
    ensures ServiceOk(TreeInsert(v, k, p)) && forall x :: x in TreeInsert(v, k, p).tree <==> x in v.tree || x == k
  {
  }

  lemma EraseKeeps(v: Service, k: nat)
    requires ServiceOk(v) && k in v.tree
    ensures ServiceOk(TreeErase(v, k).(busy := v.busy - 1)) && forall x :: x in TreeErase(v, k).tree <==> x in v.tree && x != k
  {
    DropIs(v.tree, k);
  }

  // ---------- one process's queue ----------

  /** `queued` counts the queued requests by their sync flag. */
  datatype Queued = Queued(async: nat, sync: nat)

  datatype Cfqq = Cfqq(sort: seq<Request>, fifo: seq<Request>, next: Option<Request>, onRr: bool, queued: Queued)

  function Count(list: seq<Request>, sync: bool): nat {
    if list == [] then 0 else (if list[0].sync == sync then 1 else 0) + Count(list[1..], sync)
  }

  function CountOf(list: seq<Request>): Queued { Queued(Count(list, false), Count(list, true)) }

  function OneMore(q: Queued, sync: bool): Queued { if sync then q.(sync := q.sync + 1) else q.(async := q.async + 1) }

  /** The code checks first that the count is not zero. */
  function OneLess(q: Queued, sync: bool): Queued
    requires if sync then q.sync > 0 else q.async > 0
  {
    if sync then q.(sync := q.sync - 1) else q.(async := q.async - 1)
  }

  lemma {:induction false} CountAppend(a: seq<Request>, b: seq<Request>, sync: bool)
    ensures Count(a + b, sync) == Count(a, sync) + Count(b, sync)
  {
    if a == [] {
      assert a + b == b;
    } else {
      assert (a + b)[1..] == a[1..] + b;
      CountAppend(a[1..], b, sync);
    }
  }

  lemma {:induction false} CountAround(a: seq<Request>, rq: Request, b: seq<Request>)
    ensures CountOf(a + [rq] + b) == OneMore(CountOf(a + b), rq.sync)
  {
    forall f: bool ensures Count(a + [rq] + b, f) == Count(a + b, f) + (if rq.sync == f then 1 else 0) {
      CountAppend(a + [rq], b, f);
      CountAppend(a, [rq], f);
      CountAppend(a, b, f);
      assert [rq][1..] == [];
    }
  }

  lemma CountWithout(list: seq<Request>, i: nat)
    requires i < |list|
    ensures CountOf(list) == OneMore(CountOf(Without(list, i)), list[i].sync)
  {
    assert list == list[..i] + [list[i]] + list[i + 1..];
    CountAround(list[..i], list[i], list[i + 1..]);
  }

  lemma CountInserted(list: seq<Request>, rq: Request)
    ensures CountOf(Inserted(list, rq)) == OneMore(CountOf(list), rq.sync)
  {
    var k := PlaceFor(list, rq.sector);
    CountAround(list[..k], rq, list[k..]);
    assert list == list[..k] + list[k..];
  }

  /** cfq_choose_req as far as missing and equal requests go; `prefer` decides the rest. */
  function Choose(a: Option<Request>, b: Option<Request>, prefer: (Request, Request) -> bool): Option<Request> {
    if a == None || a == b then b else if b == None then a else if prefer(a.value, b.value) then a else b
  }

  function FindNext(list: seq<Request>, i: nat, prefer: (Request, Request) -> bool): Option<Request>
    requires i < |list|
  {
    Choose(AfterOrFirst(list, i), Before(list, i), prefer)
  }

  lemma FindNextRemains(list: seq<Request>, i: nat, prefer: (Request, Request) -> bool)
    requires i < |list| && Sorted(list)
    ensures FindNext(list, i, prefer) == None <==> Without(list, i) == []
    ensures FindNext(list, i, prefer).Some? ==> FindNext(list, i, prefer).value in Without(list, i)
  {
    NeighboursRemain(list, i);
    hide AfterOrFirst, Before, Without;
  }

  /** cfq_remove_request as far as the queue itself goes. */
  function Removed(q: Cfqq, rq: Request, prefer: (Request, Request) -> bool): Cfqq
    requires rq in q.sort && q.queued == CountOf(q.sort)
  {
    var i := IndexOf(q.sort, rq);
    CountWithout(q.sort, i);
    q.(next := if q.next == Some(rq) then FindNext(q.sort, i, prefer) else q.next, fifo := Dropped(q.fifo, rq),
       sort := Without(q.sort, i), queued := OneLess(q.queued, rq.sync))
  }

  /** Tree, FIFO and count agree, but for a request on its way back into the tree; the next request
      is queued or is that one. */
  ghost predicate QueueBut(q: Cfqq, out: multiset<Request>) {
    && Sorted(q.sort) && multiset(q.fifo) == multiset(q.sort) + out && q.queued == CountOf(q.sort)
    && (q.next.Some? ==> q.next.value in q.sort || q.next.value in out)
  }

  ghost predicate QueueOk(q: Cfqq) { QueueBut(q, multiset{}) && (q.next == None <==> q.sort == []) && (q.onRr <==> q.sort != []) }

  lemma LessUndoesMore(q: Queued, sync: bool)
    ensures var m := OneMore(q, sync); (if sync then m.sync > 0 else m.async > 0) && OneLess(m, sync) == q
  {
  }

  lemma RemovedKeeps(q: Cfqq, rq: Request, out: multiset<Request>, prefer: (Request, Request) -> bool)
    requires QueueBut(q, out) && rq in q.sort && rq !in out
    ensures var r := Removed(q, rq, prefer);
            && QueueBut(r, out) && r.onRr == q.onRr && r.sort == Without(q.sort, IndexOf(q.sort, rq))
            && (q.next != Some(rq) ==> r.next == q.next)
            && (q.next == Some(rq) ==> (r.next == None <==> r.sort == []))
  {
    hide Sorted, Without, Dropped, IndexOf, FindNext, CountOf, OneMore, OneLess;
    var i := IndexOf(q.sort, rq);
    LessUndoesMore(CountOf(Without(q.sort, i)), rq.sync);
    FifoDrops(q.fifo, q.sort, out, rq);
    WithoutSorted(q.sort, i);
    CountWithout(q.sort, i);
    FindNextRemains(q.sort, i, prefer);
    if q.next.Some? { InWithout(q.sort, i, q.next.value); }
  }

  // ---------- the device ----------

  datatype State = State(queues: seq<Cfqq>, service: Service, active: Option<nat>)

  /** What the caller decides: which of two requests is better, and where a queue goes in the tree. */
  datatype Policy = Policy(prefer: (Request, Request) -> bool, place: nat)

  function Put(s: State, k: nat, q: Cfqq): State
    requires k < |s.queues|
  {
    s.(queues := s.queues[k := q])
  }

  /** cfq_add_cfqq_rr. */
  function AddRr(s: State, k: nat, place: nat): State
    requires k < |s.queues|
  {
    Put(s, k, s.queues[k].(onRr := true)).(service := TreeInsert(s.service.(busy := s.service.busy + 1), k, place))
  }

  /** cfq_del_cfqq_rr. */
  function DelRr(s: State, k: nat): State
    requires k < |s.queues| && s.service.busy > 0
  {
    Put(s, k, s.queues[k].(onRr := false)).(service := TreeErase(s.service, k).(busy := s.service.busy - 1))
  }

  ghost predicate Linked(s: State) {
    && ServiceOk(s.service)
    && (forall k :: k in s.service.tree <==> 0 <= k < |s.queues| && s.queues[k].onRr)
  }

  /** A queue is on the tree exactly when it has requests, and everything else that has to agree does. */
  ghost predicate Inv(s: State) {
    Linked(s) && (forall k :: 0 <= k < |s.queues| ==> QueueOk(s.queues[k])) && (s.active.Some? ==> s.active.value < |s.queues|)
  }

  /** Everything holds of the other queues, and of queue k only the link to the tree. */
  ghost predicate InvBut(s: State, k: nat) {
    && k < |s.queues| && Linked(s) && (forall j :: 0 <= j < |s.queues| && j != k ==> QueueOk(s.queues[j]))
    && (s.active.Some? ==> s.active.value < |s.queues|)
  }

  lemma PutKeeps(s: State, k: nat, q: Cfqq)
    requires InvBut(s, k) && q.onRr == s.queues[k].onRr
    ensures InvBut(Put(s, k, q), k)
  {
  }

  lemma AddRrKeeps(s: State, k: nat, place: nat)
    requires InvBut(s, k) && !s.queues[k].onRr
    ensures InvBut(AddRr(s, k, place), k)
  {
    hide TreeInsert, QueueOk;
    InsertKeeps(s.service.(busy := s.service.busy + 1), k, place);
  }

  lemma DelRrKeeps(s: State, k: nat)
    requires InvBut(s, k) && s.queues[k].onRr
    ensures s.service.busy > 0 && InvBut(DelRr(s, k), k)
  {
    hide TreeErase, QueueOk;
    assert k in s.service.tree;
    EraseKeeps(s.service, k);
  }

  /** cfq_remove_request on queue k. */
  function RemoveRequest(s: State, k: nat, rq: Request, p: Policy): State
    requires k < |s.queues| && rq in s.queues[k].sort && s.queues[k].queued == CountOf(s.queues[k].sort)
  {
    var s1 := Put(s, k, Removed(s.queues[k], rq, p.prefer));
    if s1.queues[k].onRr && s1.queues[k].sort == [] && s1.service.busy > 0 then DelRr(s1, k) else s1
  }

  /** What cfq_remove_request leaves of queue k: linked exactly when it should be, if it was before. */
  lemma RemoveKeeps(s: State, k: nat, rq: Request, out: multiset<Request>, p: Policy)
    requires InvBut(s, k) && QueueBut(s.queues[k], out) && rq in s.queues[k].sort && rq !in out && s.queues[k].onRr
    ensures var s' := RemoveRequest(s, k, rq, p); var r := Removed(s.queues[k], rq, p.prefer);
            && InvBut(s', k) && |s'.queues| == |s.queues|
            && s'.queues[k] == r.(onRr := r.sort != []) && QueueBut(s'.queues[k], out)
  {
    hide QueueOk, Removed, Without;
    RemovedKeeps(s.queues[k], rq, out, p.prefer);
    var r := Removed(s.queues[k], rq, p.prefer);
    var s1 := Put(s, k, r);
    PutKeeps(s, k, r);
    if r.sort == [] { DelRrKeeps(s1, k); }
  }

  /** A queue that was in order before losing a request is in order after. */
  lemma RemoveInOrder(s: State, k: nat, rq: Request, p: Policy)
    requires Inv(s) && k < |s.queues| && rq in s.queues[k].sort
    ensures Inv(RemoveRequest(s, k, rq, p))
    ensures RemoveRequest(s, k, rq, p).queues[k].sort == Without(s.queues[k].sort, IndexOf(s.queues[k].sort, rq))
    ensures forall j :: 0 <= j < |s.queues| && j != k ==> RemoveRequest(s, k, rq, p).queues[j] == s.queues[j]
  {
    hide Removed, Without;
    var q := s.queues[k];
    RemoveKeeps(s, k, rq, multiset{}, p);
    RemovedKeeps(q, rq, multiset{}, p.prefer);
    if q.next != Some(rq) { StillSome(q.sort, rq, q.next.value); }
    hide RemoveRequest;
  }

  lemma StillSome(list: seq<Request>, rq: Request, other: Request)
    requires rq in list && other in list && rq != other && Sorted(list)
    ensures Without(list, IndexOf(list, rq)) != []
  {
  }

  /** cfq_add_rq_rb: a request in the way is dispatched first, which may take the queue off the tree;
      adding puts it on again. */
  function AddRqRb(s: State, k: nat, rq: Request, p: Policy): State
    requires k < |s.queues| && s.queues[k].queued == CountOf(s.queues[k].sort)
  {
    var sort := s.queues[k].sort;
    var s1 := if HasAlias(sort, rq.sector) then RemoveRequest(s, k, Alias(sort, rq.sector), p) else s;
    if k >= |s1.queues| then s1
    else
      var q := s1.queues[k];
      var s2 := Put(s1, k, q.(sort := Inserted(q.sort, rq), queued := OneMore(q.queued, rq.sync), next := Choose(q.next, Some(rq), p.prefer)));
      if q.onRr then s2 else AddRr(s2, k, p.place)
  }

  lemma InsertedKeeps(q: Cfqq, rq: Request, out: multiset<Request>, p: Policy)
    requires QueueBut(q.(next := None), out) && !HasAlias(q.sort, rq.sector)
    requires q.next.Some? ==> q.next.value in q.sort || q.next.value == rq
    ensures var r := q.(sort := Inserted(q.sort, rq), queued := OneMore(q.queued, rq.sync), next := Choose(q.next, Some(rq), p.prefer));
            && Sorted(r.sort) && multiset(r.sort) == multiset(q.sort) + multiset{rq} && r.queued == CountOf(r.sort)
            && r.sort != [] && r.next.Some? && r.next.value in r.sort
  {
    hide Inserted, HasAlias, Sorted, CountOf, OneMore;
    InsertedSorted(q.sort, rq);
    CountInserted(q.sort, rq);
    InInserted(q.sort, rq, rq);
    if q.next.Some? { InInserted(q.sort, rq, q.next.value); }
  }

  /** Queue k after an addition, with the FIFO still to be told of the request unless it knows it already. */
  ghost predicate Added(q: Cfqq, rq: Request, out: multiset<Request>) {
    && Sorted(q.sort) && multiset(q.fifo) + multiset{rq} == multiset(q.sort) + out && q.queued == CountOf(q.sort)
    && q.sort != [] && q.onRr && q.next.Some? && q.next.value in q.sort
  }

  /** The alias, if there is one, leaves; what is then in the tree leaves room for the request. */
  lemma MakeRoomKeeps(s: State, k: nat, rq: Request, out: multiset<Request>, p: Policy)
    requires InvBut(s, k) && QueueBut(s.queues[k], out) && rq !in s.queues[k].sort && (out == multiset{} || out == multiset{rq})
    requires s.queues[k].sort != [] ==> s.queues[k].onRr
    ensures var sort := s.queues[k].sort;
            var s1 := if HasAlias(sort, rq.sector) then RemoveRequest(s, k, Alias(sort, rq.sector), p) else s;
            && InvBut(s1, k) && |s1.queues| == |s.queues| && QueueBut(s1.queues[k], out) && !HasAlias(s1.queues[k].sort, rq.sector)
  {
    hide QueueOk, RemoveRequest, Without, Removed;
    var q := s.queues[k];
    if HasAlias(q.sort, rq.sector) {
      var a := Alias(q.sort, rq.sector);
      AliasGone(q.sort, rq.sector);
      assert a in q.sort && a !in out;
      hide HasAlias, PlaceFor, IndexOf, Alias;
      RemoveKeeps(s, k, a, out, p);
      RemovedKeeps(q, a, out, p.prefer);
    }
  }

  lemma AddRqRbKeeps(s: State, k: nat, rq: Request, out: multiset<Request>, p: Policy)
    requires InvBut(s, k) && QueueBut(s.queues[k], out) && rq !in s.queues[k].sort && (out == multiset{} || out == multiset{rq})
    requires s.queues[k].sort != [] ==> s.queues[k].onRr
    ensures var s' := AddRqRb(s, k, rq, p);
            InvBut(s', k) && |s'.queues| == |s.queues| && Added(s'.queues[k], rq, out)
  {
    var sort := s.queues[k].sort;
    assert s.queues[k].queued == CountOf(sort) && (HasAlias(sort, rq.sector) ==> Alias(sort, rq.sector) in sort);
    hide QueueOk, RemoveRequest, QueueBut, Linked, Added, HasAlias, Alias, CountOf;
    MakeRoomKeeps(s, k, rq, out, p);
    LinkIn(if HasAlias(sort, rq.sector) then RemoveRequest(s, k, Alias(sort, rq.sector), p) else s, k, rq, out, p);
  }

  /** The insertion itself, there being room. */
  lemma LinkIn(s: State, k: nat, rq: Request, out: multiset<Request>, p: Policy)
    requires InvBut(s, k) && QueueBut(s.queues[k], out) && !HasAlias(s.queues[k].sort, rq.sector)
    requires out == multiset{} || out == multiset{rq}
    ensures var q := s.queues[k];
            var r := q.(sort := Inserted(q.sort, rq), queued := OneMore(q.queued, rq.sync), next := Choose(q.next, Some(rq), p.prefer));
            var s' := if q.onRr then Put(s, k, r) else AddRr(Put(s, k, r), k, p.place);
            InvBut(s', k) && |s'.queues| == |s.queues| && Added(s'.queues[k], rq, out)
  {
    hide QueueOk, Choose, CountOf, Inserted, OneMore, HasAlias, Linked, Sorted;
    var q := s.queues[k];
    InsertedKeeps(q, rq, out, p);
    var r := q.(sort := Inserted(q.sort, rq), queued := OneMore(q.queued, rq.sync), next := Choose(q.next, Some(rq), p.prefer));
    Swap(multiset(q.sort), out, rq);
    PutKeeps(s, k, r);
    if !q.onRr { AddRrKeeps(Put(s, k, r), k, p.place); }
  }

  lemma Swap(a: multiset<Request>, out: multiset<Request>, rq: Request)
    ensures a + out + multiset{rq} == a + multiset{rq} + out
  {
  }

  /** cfq_insert_request. */
  function InsertRequest(s: State, k: nat, rq: Request, p: Policy): State
    requires k < |s.queues| && s.queues[k].queued == CountOf(s.queues[k].sort)
  {
    var s1 := AddRqRb(s, k, rq, p);
    if k < |s1.queues| then Put(s1, k, s1.queues[k].(fifo := s1.queues[k].fifo + [rq])) else s1
  }

  /** cfq_reposition_rq_rb after a front merge. */
  function Reposition(s: State, k: nat, rq: Request, sector: nat, p: Policy): State
    requires k < |s.queues| && rq in s.queues[k].sort && s.queues[k].queued == CountOf(s.queues[k].sort)
  {
    var q, rq' := s.queues[k], rq.(sector := sector);
    AddRqRb(Put(s, k, TakenOut(q, rq, rq')), k, rq', p)
  }

  /** The request leaves the tree; next_rq, if it was this one, still is. */
  function TakenOut(q: Cfqq, rq: Request, rq': Request): (r: Cfqq)
    requires rq in q.sort && q.queued == CountOf(q.sort)
    ensures r.queued == CountOf(r.sort)
  {
    var i := IndexOf(q.sort, rq);
    CountWithout(q.sort, i);
    q.(sort := Without(q.sort, i), queued := OneLess(q.queued, rq.sync), fifo := Renamed(q.fifo, rq, rq'),
       next := if q.next == Some(rq) then Some(rq') else q.next)
  }

  lemma TakenOutKeeps(q: Cfqq, rq: Request, rq': Request)
    requires QueueOk(q) && rq in q.sort
    ensures QueueBut(TakenOut(q, rq, rq'), multiset{rq'}) && TakenOut(q, rq, rq').onRr
  {
    hide Without, CountOf, OneLess, Renamed;
    var i := IndexOf(q.sort, rq);
    assert rq in multiset(q.sort) && rq in multiset(q.fifo);
    RenamedCounts(q.fifo, rq, rq');
    WithoutCounts(q.sort, i);
    WithoutSorted(q.sort, i);
    if q.next.Some? { InWithout(q.sort, i, q.next.value); }
  }

  lemma AllQueuesOk(s: State, k: nat)
    requires InvBut(s, k) && QueueOk(s.queues[k])
    ensures Inv(s)
  {
  }

  lemma InsertInOrder(s: State, k: nat, rq: Request, p: Policy)
    requires Inv(s) && k < |s.queues| && rq !in s.queues[k].sort
    ensures Inv(InsertRequest(s, k, rq, p)) && |InsertRequest(s, k, rq, p).queues| == |s.queues|
    ensures var f := InsertRequest(s, k, rq, p).queues[k].fifo; f != [] && f[|f| - 1] == rq
  {
    hide AddRqRb;
    AddRqRbKeeps(s, k, rq, multiset{}, p);
    var s1 := AddRqRb(s, k, rq, p);
    var q := s1.queues[k].(fifo := s1.queues[k].fifo + [rq]);
    PutKeeps(s1, k, q);
    AllQueuesOk(Put(s1, k, q), k);
  }

  lemma RepositionInOrder(s: State, k: nat, rq: Request, sector: nat, p: Policy)
    requires Inv(s) && k < |s.queues| && rq in s.queues[k].sort && rq.(sector := sector) !in Without(s.queues[k].sort, IndexOf(s.queues[k].sort, rq))
    ensures Inv(Reposition(s, k, rq, sector, p)) && |Reposition(s, k, rq, sector, p).queues| == |s.queues|
  {
    hide AddRqRb, Without, QueueOk;
    var q, rq' := s.queues[k], rq.(sector := sector);
    QueueWasOnRr(q, rq);
    TakenOutKeeps(q, rq, rq');
    var r := TakenOut(q, rq, rq');
    assert r.sort == Without(q.sort, IndexOf(q.sort, rq));
    hide TakenOut;
    PutKeeps(s, k, r);
    var s1 := Put(s, k, r);
    AddRqRbKeeps(s1, k, rq', multiset{rq'}, p);
    var s' := AddRqRb(s1, k, rq', p);
    AddedIsOk(s'.queues[k], rq');
    AllQueuesOk(s', k);
  }

  lemma QueueWasOnRr(q: Cfqq, rq: Request)
    requires QueueOk(q) && rq in q.sort
    ensures q.onRr && q.queued == CountOf(q.sort)
  {
  }

  lemma AddedIsOk(q: Cfqq, rq: Request)
    requires Added(q, rq, multiset{rq})
    ensures QueueOk(q)
  {
    Cancel(multiset(q.fifo), multiset(q.sort), rq);
  }

  lemma Cancel(a: multiset<Request>, b: multiset<Request>, rq: Request)
    requires a + multiset{rq} == b + multiset{rq}
    ensures a == b
  {
    assert a == a + multiset{rq} - multiset{rq};
    assert b == b + multiset{rq} - multiset{rq};
  }

  // ---------- other steps ----------

  /** cfq_resort_rr_list: a queue on the tree is moved to another place in it. */
  function Resort(s: State, k: nat, place: nat): State
    requires k < |s.queues|
  {
    if s.queues[k].onRr then s.(service := TreeInsert(TreeErase(s.service, k), k, place)) else s
  }

  lemma ResortKeeps(s: State, k: nat, place: nat)
    requires Inv(s) && k < |s.queues|
    ensures Inv(Resort(s, k, place))
  {
    hide TreeErase, TreeInsert, QueueOk;
    if s.queues[k].onRr {
      assert k in s.service.tree;
      EraseKeeps(s.service, k);
      EraseBusy(s.service, k);
      InsertKeeps(TreeErase(s.service, k), k, place);
    }
  }

  lemma EraseBusy(v: Service, k: nat)
    requires ServiceOk(v) && k in v.tree
    ensures TreeErase(v, k).busy == |TreeErase(v, k).tree| + 1
  {
    DropIs(v.tree, k);
  }

  /** What the clock and the heuristics say about the active queue: its slice is used up, or it is worth waiting for. */
  datatype Slice = Slice(used: bool, wait: bool, place: nat)

  /** cfq_select_queue: the state it leaves and the queue to serve, if any. */
  function SelectQueue(s: State, c: Slice): (State, Option<nat>)
    requires s.active.Some? ==> s.active.value < |s.queues|
  {
    if s.active.Some? && !c.used && s.queues[s.active.value].sort != [] then (s, s.active)
    else if s.active.Some? && !c.used && c.wait then (s, None)
    else
      var s1 := if s.active.Some? then Resort(s, s.active.value, c.place).(active := None) else s;
      var v := if s1.service.tree == [] then s1.service else First(s1.service);
      var k := if s1.service.tree == [] then None else v.left;
      (s1.(service := v, active := k), k)
  }

  /** It never selects a queue without requests. */
  lemma SelectedHasRequests(s: State, c: Slice)
    requires Inv(s)
    ensures var (s', k) := SelectQueue(s, c);
            && Inv(s') && s'.queues == s.queues
            && (k.Some? ==> k.value < |s.queues| && s.queues[k.value].sort != [] && s.queues[k.value].next.Some?)
            && (k == None ==> (s.active.Some? && c.wait) || forall j :: 0 <= j < |s.queues| ==> s.queues[j].sort == [])
  {
    hide TreeErase, TreeInsert, QueueOk, Resort;
    if s.active.Some? && !c.used && s.queues[s.active.value].sort != [] {
      QueueFacts(s.queues[s.active.value]);
    } else if s.active.Some? && !c.used && c.wait {
    } else {
      var s1 := if s.active.Some? then Resort(s, s.active.value, c.place).(active := None) else s;
      if s.active.Some? { ResortKeeps(s, s.active.value, c.place); ResortQueues(s, s.active.value, c.place); }
      NewQueue(s1);
    }
  }

  lemma QueueFacts(q: Cfqq)
    requires QueueOk(q)
    ensures (q.next.Some? <==> q.sort != []) && (q.onRr <==> q.sort != [])
  {
  }

  lemma ResortQueues(s: State, k: nat, place: nat)
    requires k < |s.queues|
    ensures Resort(s, k, place).queues == s.queues && Resort(s, k, place).active == s.active
  {
  }

  /** cfq_set_active_queue: the first queue of the tree, which has requests, or none if no queue has. */
  lemma NewQueue(s: State)
    requires Inv(s)
    ensures var v := if s.service.tree == [] then s.service else First(s.service);
            var k := if s.service.tree == [] then None else v.left;
            && Inv(s.(service := v, active := k))
            && (k.Some? ==> k.value < |s.queues| && s.queues[k.value].sort != [] && s.queues[k.value].next.Some?)
            && (k == None ==> forall j :: 0 <= j < |s.queues| ==> s.queues[j].sort == [])
  {
  }

  // ---------- runs ----------

  datatype Op = Insert(k: nat, rq: Request, policy: Policy)
              | Remove(k: nat, rq: Request, policy: Policy)                    // after a merge, or to dispatch
              | FrontMerge(k: nat, rq: Request, sector: nat, policy: Policy)
              | Move(k: nat, place: nat)                                       // cfq_resort_rr_list
              | Select(slice: Slice)
              | NewQueueFor                                                    // a process gets its queue

  /** Requests are distinct: one not queued is inserted, one queued is removed or moved. */
  predicate Possible(s: State, op: Op) {
    match op
    case Insert(k, rq, _) => k < |s.queues| && rq !in s.queues[k].sort
    case Remove(k, rq, _) => k < |s.queues| && rq in s.queues[k].sort
    case FrontMerge(k, rq, sector, _) =>
      k < |s.queues| && rq in s.queues[k].sort && rq.(sector := sector) !in Without(s.queues[k].sort, IndexOf(s.queues[k].sort, rq))
    case Move(k, _) => k < |s.queues|
    case Select(_) => true
    case NewQueueFor => true
  }

  /** ... where the queue's counters say how many requests it has, and the active queue exists. */
  predicate Enabled(s: State, op: Op) {
    && Possible(s, op)
    && (op.Insert? || op.Remove? || op.FrontMerge? ==> s.queues[op.k].queued == CountOf(s.queues[op.k].sort))
    && (op.Select? && s.active.Some? ==> s.active.value < |s.queues|)
  }

  function EmptyQueue(): Cfqq { Cfqq([], [], None, false, Queued(0, 0)) }

  function Step(s: State, op: Op): State
    requires Enabled(s, op)
  {
    match op
    case Insert(k, rq, p) => InsertRequest(s, k, rq, p)
    case Remove(k, rq, p) => RemoveRequest(s, k, rq, p)
    case FrontMerge(k, rq, sector, p) => Reposition(s, k, rq, sector, p)
    case Move(k, place) => Resort(s, k, place)
    case Select(c) => SelectQueue(s, c).0
    case NewQueueFor => s.(queues := s.queues + [EmptyQueue()])
  }

  lemma StepKeeps(s: State, op: Op)
    requires Inv(s) && Enabled(s, op)
    ensures Inv(Step(s, op))
  {
    hide InsertRequest, RemoveRequest, Reposition, Resort, SelectQueue;
    match op {
      case Insert(k, rq, p) => InsertInOrder(s, k, rq, p);
      case Remove(k, rq, p) => RemoveInOrder(s, k, rq, p);
      case FrontMerge(k, rq, sector, p) => RepositionInOrder(s, k, rq, sector, p);
      case Move(k, place) => ResortKeeps(s, k, place);
      case Select(c) => SelectedHasRequests(s, c);
      case NewQueueFor => AnotherQueue(s);
    }
  }

  lemma AnotherQueue(s: State)
    requires Inv(s)
    ensures Inv(s.(queues := s.queues + [EmptyQueue()]))
  {
  }

  predicate Legal(s: State, ops: seq<Op>)
    decreases |ops|
  {
    ops == [] || (Enabled(s, ops[0]) && Legal(Step(s, ops[0]), ops[1..]))
  }

  function Run(s: State, ops: seq<Op>): State
    requires Legal(s, ops)
    decreases |ops|
  {
    if ops == [] then s else Run(Step(s, ops[0]), ops[1..])
  }

  /** No possible step is ruled out: the counters are right, so the BUG_ON on them is not reached. */
  lemma CountersAreRight(s: State, ops: seq<Op>, op: Op)
    requires Inv(s) && Legal(s, ops) && Possible(Run(s, ops), op)
    ensures Enabled(Run(s, ops), op)
  {
    BookkeepingAgrees(s, ops);
    var q := Run(s, ops);
    if op.Insert? || op.Remove? || op.FrontMerge? { assert QueueOk(q.queues[op.k]); }
  }

  /** In every run of insertions with aliases, removals, repositionings, moves in the tree and
      selections: a queue is on the service tree exactly when it has requests, busy_queues counts
      those, the next request is missing exactly when there is none, and the cached leftmost
      node, when set, is the first of the tree. */
  lemma {:induction false} BookkeepingAgrees(s: State, ops: seq<Op>)
    requires Inv(s) && Legal(s, ops)
    ensures Inv(Run(s, ops))
    decreases |ops|
  {
    if ops != [] {
      StepKeeps(s, ops[0]);
      BookkeepingAgrees(Step(s, ops[0]), ops[1..]);
    }
  }
}
