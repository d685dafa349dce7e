/** The anticipatory scheduler's queues: adding, dispatching, removing and merging requests, and what
    every run of these keeps. */
module AnticipatoryLanes {
  import opened Options
  import opened SortTree
  import opened Anticipatory

  /** One data direction: tree, FIFO, cached next request, and the sector after the last dispatch. */
  datatype Lane = Lane(sort: seq<Request>, fifo: seq<Request>, next: Option<Request>, last: nat)

  // ---------- the operations ----------

  function RemoveQueued(l: Lane, rq: Request): Lane
    requires rq in l.sort
  {
    var i := IndexOf(l.sort, rq);
    Lane(Without(l.sort, i), Dropped(l.fifo, rq), if l.next == Some(rq) then FindNext(l.last, l.sort, i) else l.next, l.last)
  }

  /** as_move_to_dispatch of a request that by now has `size` sectors. */
  function MoveToDispatch(l: Lane, rq: Request, size: nat): Lane
    requires rq in l.sort
  {
    var last := rq.sector + size;
    RemoveQueued(l.(last := last, next := FindNext(last, l.sort, IndexOf(l.sort, rq))), rq)
  }

  /** as_add_rq_rb: a queued request at the same sector is dispatched first. */
  function AddToTree(l: Lane, rq: Request, aliasSize: nat): Lane {
    var m := if HasAlias(l.sort, rq.sector) then MoveToDispatch(l, Alias(l.sort, rq.sector), aliasSize) else l;
    m.(sort := Inserted(m.sort, rq))
  }

  function AddRequest(l: Lane, rq: Request, aliasSize: nat): Lane {
    var m := AddToTree(l, rq, aliasSize);
    m.(fifo := m.fifo + [rq], next := ChooseReq(m.last, Some(rq), m.next))
  }

  /** The lane while a front-merged request is out of its tree. */
  function TakenOut(l: Lane, rq: Request, s: nat): Lane
    requires rq in l.sort
  {
    Lane(Without(l.sort, IndexOf(l.sort, rq)), Renamed(l.fifo, rq, rq.(sector := s)),
         if l.next == Some(rq) then Some(rq.(sector := s)) else l.next, l.last)
  }

  /** as_merged_request after a front merge: the request is taken out of the tree and put back at its new sector. */
  function FrontMerge(l: Lane, rq: Request, s: nat, aliasSize: nat): Lane
    requires rq in l.sort
  {
    AddToTree(TakenOut(l, rq, s), rq.(sector := s), aliasSize)
  }

  /** list_move: rq to the place behind `other`. */
  function MovedBehind(list: seq<Request>, rq: Request, other: Request): seq<Request> {
    var rest := Dropped(list, rq);
    if other in rest then rest[..IndexOf(rest, other) + 1] + [rq] + rest[IndexOf(rest, other) + 1..] else list
  }

  /** as_merged_requests: `other` is absorbed into rq, which takes over its place in the FIFO if that
      one expires `sooner`. */
  function MergedRequests(l: Lane, rq: Request, other: Request, sooner: bool): Lane
    requires other in l.sort
  {
    RemoveQueued(if sooner then l.(fifo := MovedBehind(l.fifo, rq, other)) else l, other)
  }

  // ---------- what they keep ----------

  /** Tree and FIFO hold the same requests, and what is cached is one of them. */
  ghost predicate Linked(l: Lane) {
    Sorted(l.sort) && multiset(l.fifo) == multiset(l.sort) && (l.next.Some? ==> l.next.value in l.sort)
  }

  /** Something is cached if anything is queued. */
  predicate Cached(l: Lane) { l.next == None ==> l.sort == [] }

  ghost predicate Best(l: Lane) { IsBest(l.last, l.sort, l.next) }

  lemma RemoveCounts(l: Lane, rq: Request)
    requires rq in l.sort && multiset(l.fifo) == multiset(l.sort)
    ensures multiset(RemoveQueued(l, rq).fifo) == multiset(RemoveQueued(l, rq).sort)
  {
    assert rq in multiset(l.sort) && rq in multiset(l.fifo);
    WithoutCounts(l.sort, IndexOf(l.sort, rq));
    WithoutCounts(l.fifo, IndexOf(l.fifo, rq));
  }

  lemma RemoveKeeps(l: Lane, rq: Request)
    requires Linked(l) && rq in l.sort
    ensures Linked(RemoveQueued(l, rq))
    ensures Cached(l) ==> Cached(RemoveQueued(l, rq))
    ensures Best(l) ==> Best(RemoveQueued(l, rq))
  {
    var i := IndexOf(l.sort, rq);
    RemoveCounts(l, rq);
    if l.next == Some(rq) {
      FindNextRemains(l.last, l.sort, i);
      if Best(l) { BestRemoved(l.last, l.sort, i); }
    } else if l.next.Some? {
      InWithout(l.sort, i, l.next.value);
      if Best(l) { OtherRemoved(l.last, l.sort, i, l.next); }
    }
  }

  /** What it takes for the cache to survive a dispatch: see DispatchBestExactly. */
  ghost predicate Undisturbed(list: seq<Request>, rq: Request, size: nat)
    requires rq in list
  {
    StaysBest(list, IndexOf(list, rq), rq.sector + size)
  }

  /** The cache computed for the new head position is not disturbed by the removal that follows. */
  lemma DispatchForm(l: Lane, rq: Request, size: nat)
    requires Sorted(l.sort) && rq in l.sort
    ensures var i, last := IndexOf(l.sort, rq), rq.sector + size;
            MoveToDispatch(l, rq, size) == Lane(Without(l.sort, i), Dropped(l.fifo, rq), FindNext(last, l.sort, i), last)
  {
    hide FindNext, Sorted, Without, Dropped;
    var i, last := IndexOf(l.sort, rq), rq.sector + size;
    FindNextRemains(last, l.sort, i);
    InWithout(l.sort, i, rq);
  }

  /** A dispatch computes the cache anew, so it also repairs it. */
  lemma DispatchKeeps(l: Lane, rq: Request, size: nat)
    requires Sorted(l.sort) && multiset(l.fifo) == multiset(l.sort) && rq in l.sort
    ensures Linked(MoveToDispatch(l, rq, size)) && Cached(MoveToDispatch(l, rq, size))
    ensures Undisturbed(l.sort, rq, size) <==> Best(MoveToDispatch(l, rq, size))
  {
    hide FindNext, IsBest, StaysBest, Sorted, Without, Dropped, MoveToDispatch, IndexOf;
    var i, last := IndexOf(l.sort, rq), rq.sector + size;
    DispatchForm(l, rq, size);
    RemoveCounts(l, rq);
    WithoutSorted(l.sort, i);
    FindNextRemains(last, l.sort, i);
    DispatchBestExactly(l.sort, i, last);
  }

  lemma AddKeeps(l: Lane, rq: Request, aliasSize: nat)
    requires Linked(l)
    ensures Linked(AddRequest(l, rq, aliasSize)) && Cached(AddRequest(l, rq, aliasSize))
    ensures (if HasAlias(l.sort, rq.sector) then Undisturbed(l.sort, Alias(l.sort, rq.sector), aliasSize) else Best(l)) ==>
              Best(AddRequest(l, rq, aliasSize))
  {
    var s := rq.sector;
    var m := if HasAlias(l.sort, s) then MoveToDispatch(l, Alias(l.sort, s), aliasSize) else l;
    if HasAlias(l.sort, s) {
      DispatchForm(l, Alias(l.sort, s), aliasSize);
      DispatchKeeps(l, Alias(l.sort, s), aliasSize);
      AliasGone(l.sort, s);
    }
    hide MoveToDispatch, Undisturbed, HasAlias;
    JoinKeeps(m, rq);
  }

  lemma JoinKeeps(m: Lane, rq: Request)
    requires Linked(m) && !HasAlias(m.sort, rq.sector)
    ensures var n := Lane(Inserted(m.sort, rq), m.fifo + [rq], ChooseReq(m.last, Some(rq), m.next), m.last);
            Linked(n) && Cached(n) && (Best(m) ==> Best(n))
  {
    hide Inserted, Sorted, HasAlias, Prefers;
    InsertedSorted(m.sort, rq);
    forall x ensures x in Inserted(m.sort, rq) <==> x in m.sort || x == rq { InInserted(m.sort, rq, x); }
    if m.next.Some? { ChoosePrefers(m.last, rq, m.next.value); }
    var next := ChooseReq(m.last, Some(rq), m.next);
    if Best(m) {
      PrefersIsLinear(m.last, rq.sector, rq.sector, rq.sector);
      forall x | x in Inserted(m.sort, rq) ensures Prefers(m.last, next.value.sector, x.sector) {
        if m.next.Some? { PrefersIsLinear(m.last, next.value.sector, m.next.value.sector, x.sector); }
      }
    }
  }

  lemma ChoosePrefers(last: nat, a: Request, b: Request)
    ensures var c := ChooseReq(last, Some(a), Some(b));
            (c == Some(a) || c == Some(b)) && Prefers(last, c.value.sector, a.sector) && Prefers(last, c.value.sector, b.sector)
  {
  }

  // ---------- merges ----------

  /** Out of its tree the request is still in the FIFO. */
  lemma TakenOutCounts(l: Lane, rq: Request, s: nat)
    requires Linked(l) && rq in l.sort
    ensures var t := TakenOut(l, rq, s); Sorted(t.sort) && multiset(t.fifo) == multiset(t.sort) + multiset{rq.(sector := s)}
    ensures var t := TakenOut(l, rq, s); t.next.Some? ==> t.next.value in t.sort || t.next.value == rq.(sector := s)
  {
    var i := IndexOf(l.sort, rq);
    assert rq in multiset(l.sort) && rq in multiset(l.fifo);
    RenamedCounts(l.fifo, rq, rq.(sector := s));
    WithoutCounts(l.sort, i);
    WithoutSorted(l.sort, i);
    if l.next.Some? { InWithout(l.sort, i, l.next.value); }
    hide Renamed, Without, IndexOf;
  }

  /** Dispatching the alias of a request that is in the FIFO only. */
  lemma AliasOut(t: Lane, rq: Request, aliasSize: nat)
    requires Sorted(t.sort) && multiset(t.fifo) == multiset(t.sort) + multiset{rq} && HasAlias(t.sort, rq.sector)
    ensures var m := MoveToDispatch(t, Alias(t.sort, rq.sector), aliasSize);
            && Sorted(m.sort) && multiset(m.fifo) == multiset(m.sort) + multiset{rq} && !HasAlias(m.sort, rq.sector)
            && (m.next.Some? ==> m.next.value in m.sort) && (m.next == None <==> |t.sort| == 1)
  {
    hide MoveToDispatch, FindNext, Without, Sorted, PlaceFor, IndexOf;
    var a := Alias(t.sort, rq.sector);
    var i := IndexOf(t.sort, a);
    AliasGone(t.sort, rq.sector);
    DispatchForm(t, a, aliasSize);
    FindNextRemains(a.sector + aliasSize, t.sort, i);
    WithoutSorted(t.sort, i);
    FifoDrops(t.fifo, t.sort, multiset{rq}, a);
    WithoutLength(t.sort, i);
  }

  lemma PutBack(m: Lane, rq: Request)
    requires Sorted(m.sort) && multiset(m.fifo) == multiset(m.sort) + multiset{rq} && !HasAlias(m.sort, rq.sector)
    requires m.next.Some? ==> m.next.value in m.sort || m.next.value == rq
    ensures Linked(m.(sort := Inserted(m.sort, rq))) && Inserted(m.sort, rq) != []
  {
    InsertedSorted(m.sort, rq);
    InInserted(m.sort, rq, rq);
    if m.next.Some? { InInserted(m.sort, rq, m.next.value); }
    hide Inserted;
  }

  /** Does a front merge leave something cached?  Not if nothing was and nothing is in its way, and not
      if the only other request is. */
  predicate KeepsCache(l: Lane, rq: Request, s: nat)
    requires rq in l.sort
  {
    var rest := Without(l.sort, IndexOf(l.sort, rq));
    if HasAlias(rest, s) then |rest| != 1 else l.next.Some?
  }

  /** A front merge keeps tree and FIFO in step.  With something cached before, nothing is cached after
      it, although the merged request is queued, exactly when the only other request starts where the
      merged one now does. */
  lemma FrontMergeKeeps(l: Lane, rq: Request, s: nat, aliasSize: nat)
    requires Linked(l) && rq in l.sort
    ensures Linked(FrontMerge(l, rq, s, aliasSize)) && FrontMerge(l, rq, s, aliasSize).sort != []
    ensures Cached(FrontMerge(l, rq, s, aliasSize)) <==> KeepsCache(l, rq, s)
    ensures Cached(l) ==> (KeepsCache(l, rq, s) <==>
              var rest := Without(l.sort, IndexOf(l.sort, rq)); !(|rest| == 1 && rest[0].sector == s))
  {
    var rq' := rq.(sector := s);
    var t := TakenOut(l, rq, s);
    TakenOutCounts(l, rq, s);
    if |t.sort| == 1 { OneHasAlias(t.sort, s); }
    if HasAlias(t.sort, s) {
      AliasOut(t, rq', aliasSize);
      PutBack(MoveToDispatch(t, Alias(t.sort, s), aliasSize), rq');
    } else {
      PutBack(t, rq');
    }
    hide Linked, MoveToDispatch, Inserted, HasAlias, Renamed;
  }

  /** What keeps the cache best through a front merge: what is cached then beats the merged request at
      its new sector, or the merged request, if it is cached, beats the others. */
  ghost predicate StaysAhead(l: Lane, rq: Request, s: nat, aliasSize: nat)
    requires Linked(l) && rq in l.sort
  {
    var t := TakenOut(l, rq, s);
    if HasAlias(t.sort, s) then
      var next := FindNext(s + aliasSize, t.sort, IndexOf(t.sort, Alias(t.sort, s)));
      Undisturbed(t.sort, Alias(t.sort, s), aliasSize) && next.Some? && Prefers(s + aliasSize, next.value.sector, s)
    else if l.next == Some(rq) then forall x :: x in t.sort ==> Prefers(l.last, s, x.sector)
    else l.next.Some? && Prefers(l.last, l.next.value.sector, s)
  }

  lemma BestWithOneMore(last: nat, list: seq<Request>, next: Option<Request>, rq: Request)
    requires next.Some? ==> next.value in list
    ensures IsBest(last, Inserted(list, rq), next) <==>
            next.Some? && IsBest(last, list, next) && Prefers(last, next.value.sector, rq.sector)
  {
    forall x ensures x in Inserted(list, rq) <==> x in list || x == rq { InInserted(list, rq, x); }
    assert rq in Inserted(list, rq);
    hide Inserted, Prefers;
  }

  lemma BestIsTheNewOne(last: nat, list: seq<Request>, rq: Request)
    ensures IsBest(last, Inserted(list, rq), Some(rq)) <==> forall x :: x in list ==> Prefers(last, rq.sector, x.sector)
  {
    forall x ensures x in Inserted(list, rq) <==> x in list || x == rq { InInserted(list, rq, x); }
    assert rq in Inserted(list, rq);
    hide Inserted;
  }

  lemma MergeOntoAlias(t: Lane, rq: Request, aliasSize: nat)
    requires Sorted(t.sort) && HasAlias(t.sort, rq.sector)
    ensures var a := Alias(t.sort, rq.sector);
            var next := FindNext(rq.sector + aliasSize, t.sort, IndexOf(t.sort, a));
            Best(AddToTree(t, rq, aliasSize)) <==>
            Undisturbed(t.sort, a, aliasSize) && next.Some? && Prefers(rq.sector + aliasSize, next.value.sector, rq.sector)
  {
    hide FindNext, IsBest, StaysBest, Without, Dropped, MoveToDispatch, Inserted, IndexOf, Sorted, Prefers, PlaceFor;
    var a, last := Alias(t.sort, rq.sector), rq.sector + aliasSize;
    var i := IndexOf(t.sort, a);
    DispatchForm(t, a, aliasSize);
    FindNextRemains(last, t.sort, i);
    DispatchBestExactly(t.sort, i, last);
    var m := MoveToDispatch(t, a, aliasSize);
    BestWithOneMore(last, m.sort, m.next, rq);
  }

  /** Exactly when a front merge leaves the best request cached. */
  lemma FrontMergeBest(l: Lane, rq: Request, s: nat, aliasSize: nat)
    requires Linked(l) && Best(l) && rq in l.sort
    ensures Best(FrontMerge(l, rq, s, aliasSize)) <==> StaysAhead(l, rq, s, aliasSize)
  {
    hide FindNext, IsBest, Without, Renamed, IndexOf, Sorted, MoveToDispatch, Inserted, Undisturbed, Prefers, HasAlias, Alias;
    var t, rq' := TakenOut(l, rq, s), rq.(sector := s);
    var i := IndexOf(l.sort, rq);
    WithoutSorted(l.sort, i);
    if HasAlias(t.sort, s) {
      MergeOntoAlias(t, rq', aliasSize);
    } else if l.next == Some(rq) {
      BestIsTheNewOne(l.last, t.sort, rq');
    } else {
      BestIsSome(l.last, l.sort, l.next, rq);
      OtherRemoved(l.last, l.sort, i, l.next);
      InWithout(l.sort, i, l.next.value);
      BestWithOneMore(l.last, t.sort, l.next, rq');
    }
  }

  lemma BestIsSome(last: nat, list: seq<Request>, next: Option<Request>, rq: Request)
    requires IsBest(last, list, next) && rq in list
    ensures next.Some? && next.value in list
  {
  }

  lemma PutInCounts(list: seq<Request>, k: nat, rq: Request)
    requires k <= |list|
    ensures multiset(list[..k] + [rq] + list[k..]) == multiset(list) + multiset{rq}
  {
    assert list == list[..k] + list[k..];
  }

  lemma DroppedCounts(list: seq<Request>, rq: Request)
    requires rq in list
    ensures multiset(Dropped(list, rq)) + multiset{rq} == multiset(list)
  {
    hide IndexOf;
    var i := IndexOf(list, rq);
    assert list == list[..i] + [rq] + list[i + 1..];
  }

  lemma BehindCounts(list: seq<Request>, rq: Request, other: Request)
    requires rq in list
    ensures multiset(MovedBehind(list, rq, other)) == multiset(list)
  {
    hide Dropped, IndexOf;
    var rest := Dropped(list, rq);
    DroppedCounts(list, rq);
    if other in rest { PutInCounts(rest, IndexOf(rest, other) + 1, rq); }
  }

  /** A merge of two requests keeps everything, the cache included. */
  lemma MergeKeeps(l: Lane, rq: Request, other: Request, sooner: bool)
    requires Linked(l) && rq in l.sort && other in l.sort
    ensures Linked(MergedRequests(l, rq, other, sooner))
    ensures Cached(l) ==> Cached(MergedRequests(l, rq, other, sooner))
    ensures Best(l) ==> Best(MergedRequests(l, rq, other, sooner))
  {
    assert rq in multiset(l.sort) && rq in multiset(l.fifo);
    BehindCounts(l.fifo, rq, other);
    hide MovedBehind, Sorted, IsBest, RemoveQueued;
    RemoveKeeps(if sooner then l.(fifo := MovedBehind(l.fifo, rq, other)) else l, other);
  }

  // ---------- runs ----------

  datatype Op = Add(rq: Request, aliasSize: nat) | Dispatch(rq: Request, size: nat) | Remove(rq: Request)
              | Front(rq: Request, sector: nat, aliasSize: nat) | Merge(rq: Request, other: Request, sooner: bool)

  predicate Enabled(l: Lane, op: Op) { (!op.Add? ==> op.rq in l.sort) && (op.Merge? ==> op.other in l.sort) }

  function Step(l: Lane, op: Op): Lane
    requires Enabled(l, op)
  {
    match op
    case Add(rq, size) => AddRequest(l, rq, size)
    case Dispatch(rq, size) => MoveToDispatch(l, rq, size)
    case Remove(rq) => RemoveQueued(l, rq)
    case Front(rq, s, size) => FrontMerge(l, rq, s, size)
    case Merge(rq, other, sooner) => MergedRequests(l, rq, other, sooner)
  }

  predicate Legal(l: Lane, ops: seq<Op>)
    decreases |ops|
  {
    ops == [] || (Enabled(l, ops[0]) && Legal(Step(l, ops[0]), ops[1..]))
  }

  function Run(l: Lane, ops: seq<Op>): Lane
    requires Legal(l, ops)
    decreases |ops|
  {
    if ops == [] then l else Run(Step(l, ops[0]), ops[1..])
  }

  /** Does the step leave the best request cached, if it was? */
  ghost predicate Calm(l: Lane, op: Op)
    requires Linked(l) && Enabled(l, op)
  {
    match op
    case Add(rq, size) => HasAlias(l.sort, rq.sector) ==> Undisturbed(l.sort, Alias(l.sort, rq.sector), size)
    case Dispatch(rq, size) => Undisturbed(l.sort, rq, size)
    case Front(rq, s, size) => StaysAhead(l, rq, s, size)
    case _ => true
  }

  lemma StepKeeps(l: Lane, op: Op)
    requires Linked(l) && Enabled(l, op)
    ensures Linked(Step(l, op))
    ensures Cached(l) && (op.Front? ==> KeepsCache(l, op.rq, op.sector)) ==> Cached(Step(l, op))
    ensures Best(l) && Calm(l, op) ==> Best(Step(l, op))
  {
    hide Linked, Best, AddRequest, MoveToDispatch, RemoveQueued, FrontMerge, MergedRequests, Undisturbed, StaysAhead, HasAlias, KeepsCache;
    match op {
      case Add(rq, size) => AddKeeps(l, rq, size);
      case Dispatch(rq, size) => SortedLane(l); DispatchKeeps(l, rq, size);
      case Remove(rq) => RemoveKeeps(l, rq);
      case Front(rq, s, size) =>
        FrontMergeKeeps(l, rq, s, size);
        if Best(l) && Calm(l, op) { FrontMergeBest(l, rq, s, size); }
      case Merge(rq, other, sooner) => MergeKeeps(l, rq, other, sooner);
    }
  }

  lemma SortedLane(l: Lane)
    requires Linked(l)
    ensures Sorted(l.sort) && multiset(l.fifo) == multiset(l.sort)
  {
  }

  /** No front merge of the run empties the cache. */
  predicate Covered(l: Lane, ops: seq<Op>)
    requires Legal(l, ops)
    decreases |ops|
  {
    ops == [] || ((ops[0].Front? ==> KeepsCache(l, ops[0].rq, ops[0].sector)) && Covered(Step(l, ops[0]), ops[1..]))
  }

  /** No step of the run disturbs the cache. */
  ghost predicate Quiet(l: Lane, ops: seq<Op>)
    requires Linked(l) && Legal(l, ops)
    decreases |ops|
  {
    ops == [] || (Calm(l, ops[0]) && (StepKeeps(l, ops[0]); Quiet(Step(l, ops[0]), ops[1..])))
  }

  lemma {:induction false} RunKeeps(l: Lane, ops: seq<Op>)
    requires Linked(l) && Legal(l, ops)
    ensures Linked(Run(l, ops))
    ensures Cached(l) && Covered(l, ops) ==> Cached(Run(l, ops))
    ensures Best(l) && Quiet(l, ops) ==> Best(Run(l, ops))
    decreases |ops|
  {
    if ops != [] {
      StepKeeps(l, ops[0]);
      RunKeeps(Step(l, ops[0]), ops[1..]);
    }
  }

  /** The empty lane, wherever the head is. */
  function Empty(last: nat): Lane { Lane([], [], None, last) }

  /** In every run of insertions, dispatches, removals and merges tree and FIFO agree and what is cached
      is queued; unless a front merge empties the cache, something is cached while anything is
      queued; and while no step disturbs it, the cached request is the best of all queued ones,
      though only neighbours were ever compared. */
  lemma CacheIsBest(last: nat, ops: seq<Op>)
    requires Legal(Empty(last), ops)
    ensures Linked(Run(Empty(last), ops))
    ensures Covered(Empty(last), ops) ==> Cached(Run(Empty(last), ops))
    ensures Quiet(Empty(last), ops) ==> Best(Run(Empty(last), ops))
  {
    RunKeeps(Empty(last), ops);
  }

  /** A failing input: requests at 100 and 108, of which the second grows forward by 8 sectors.  The
      first is dispatched to make room, and the one left is not cached. */
  lemma FrontMergeEmptiesTheCache()
    ensures var a, b := Request(0, 100, true), Request(1, 108, true);
            var ops := [Add(a, 0), Add(b, 0), Front(b, 100, 8)];
            Legal(Empty(0), ops) && Run(Empty(0), ops) == Lane([b.(sector := 100)], [b.(sector := 100)], None, 108)
  {
    var a, b := Request(0, 100, true), Request(1, 108, true);
    var b' := b.(sector := 100);
    var ops := [Add(a, 0), Add(b, 0), Front(b, 100, 8)];
    var l1 := Lane([a], [a], Some(a), 0);
    var l2 := Lane([a, b], [a, b], Some(a), 0);
    assert AddRequest(Empty(0), a, 0) == l1;
    assert AddRequest(l1, b, 0) == l2;
    var l3 := GrownForward(a, b);
    hide AddRequest, FrontMerge;
    ThreeSteps(Empty(0), l1, l2, l3, ops);
  }

  lemma GrownForward(a: Request, b: Request) returns (l: Lane)
    requires a == Request(0, 100, true) && b == Request(1, 108, true)
    ensures FrontMerge(Lane([a, b], [a, b], Some(a), 0), b, 100, 8) == l
    ensures l == Lane([b.(sector := 100)], [b.(sector := 100)], None, 108)
  {
    var b', l2 := b.(sector := 100), Lane([a, b], [a, b], Some(a), 0);
    assert IndexOf(l2.sort, b) == 1;
    var t := Lane([a], [a, b'], Some(a), 0);
    assert TakenOut(l2, b, 100) == t;
    assert IndexOf(t.fifo, a) == 0 && Without(t.fifo, 0) == [b'] && Without(t.sort, 0) == [];
    l := Lane([b'], [b'], None, 108);
    assert MoveToDispatch(t, a, 8) == Lane([], [b'], None, 108);
  }

  lemma ThreeSteps(l: Lane, l1: Lane, l2: Lane, l3: Lane, ops: seq<Op>)
    requires |ops| == 3 && Enabled(l, ops[0]) && Step(l, ops[0]) == l1 && Enabled(l1, ops[1]) && Step(l1, ops[1]) == l2
    requires Enabled(l2, ops[2]) && Step(l2, ops[2]) == l3
    ensures Legal(l, ops) && Run(l, ops) == l3
  {
    hide Step, Enabled;
    assert ops[1..] == [ops[1], ops[2]] && ops[1..][1..] == [ops[2]] && ops[1..][1..][1..] == [];
    assert Legal(l2, ops[1..][1..]) && Run(l2, ops[1..][1..]) == l3;
    assert Legal(l1, ops[1..]) && Run(l1, ops[1..]) == l3;
  }

  // ---------- the requests of one direction ----------

  ghost predicate Sided(l: Lane, d: bool) { forall x :: x in l.sort ==> x.sync == d }

  ghost predicate LaneOk(l: Lane, d: bool) { Linked(l) && Sided(l, d) }

  lemma LaneFacts(l: Lane, d: bool)
    requires LaneOk(l, d)
    ensures l.fifo == [] <==> l.sort == []
    ensures forall x :: x in l.fifo ==> x in l.sort && x.sync == d
    ensures l.next.Some? ==> l.next.value in l.fifo
  {
    assert |multiset(l.fifo)| == |multiset(l.sort)|;
    forall x ensures x in l.fifo <==> x in l.sort { assert x in multiset(l.fifo) <==> x in multiset(l.sort); }
  }

  lemma FifoFacts(l: Lane, d: bool)
    requires LaneOk(l, d)
    ensures l.next.Some? ==> l.fifo != [] && l.next.value in l.fifo
  {
    LaneFacts(l, d);
  }

  lemma FifoIsQueued(l: Lane, d: bool, rq: Request)
    requires LaneOk(l, d) && rq in l.fifo
    ensures rq in l.sort && rq.sync == d
  {
    LaneFacts(l, d);
  }

  lemma DispatchLane(l: Lane, rq: Request, size: nat, d: bool)
    requires LaneOk(l, d) && rq in l.sort
    ensures var m := MoveToDispatch(l, rq, size); var i, last := IndexOf(l.sort, rq), rq.sector + size;
            && LaneOk(m, d) && Cached(m) && |m.sort| == |l.sort| - 1 && multiset(l.sort) == multiset(m.sort) + multiset{rq}
            && m == Lane(Without(l.sort, i), Dropped(l.fifo, rq), FindNext(last, l.sort, i), last)
  {
    hide MoveToDispatch, FindNext, IndexOf, Dropped, Without, IsBest, Undisturbed, Best, Sorted;
    var i := IndexOf(l.sort, rq);
    DispatchKeeps(l, rq, size);
    DispatchForm(l, rq, size);
    WithoutCounts(l.sort, i);
    WithoutLength(l.sort, i);
    SidedWithout(l.sort, i, d, MoveToDispatch(l, rq, size));
  }

  lemma SidedWithout(list: seq<Request>, i: nat, d: bool, m: Lane)
    requires i < |list| && (forall x :: x in list ==> x.sync == d) && m.sort == Without(list, i)
    ensures Sided(m, d) && list[i] in multiset(list)
  {
  }
}
