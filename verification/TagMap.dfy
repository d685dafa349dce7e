/** Tagged queueing (block/blk-tag.c): several queues share one tag map without a common lock. Each
    queue's own operations exclude each other; the steps of different queues interleave freely. A
    step is one bit operation, one access to the index, or one change of the queue's own list. */
module TagMap {
  import opened Options

  /** A request: its queue and its identity there. */
  datatype Id = Id(queue: nat, rq: nat)

  datatype Entry = Entry(rq: nat, tag: nat)

  /** Where a queue is in blk_queue_start_tag or blk_queue_end_tag. */
  datatype Pc = Idle
              | Scan(rq: nat)                  // about to look for a zero bit
              | Test(rq: nat, tag: nat)        // about to test and set it
              | Got(rq: nat, tag: nat)         // the bit is ours
              | Placed(rq: nat, tag: nat)      // and the index points to the request
              | Ending(rq: nat, tag: nat)      // off the busy list, about to clear the index
              | Clearing(tag: nat)             // about to clear the bit

  /** `busy` is the list of tagged requests, the latest first. */
  datatype Queue = Queue(pc: Pc, busy: seq<Entry>)

  /** The map has as many bits as the real depth; `missing` records that an index slot or a bit that
      had to be set was found clear. */
  datatype State = State(bits: seq<bool>, index: seq<Option<Id>>, maxDepth: nat, queues: seq<Queue>, missing: bool)

  datatype Act = Start(rq: nat)
               | Find(tag: nat)           // find_first_zero_bit came up with this one; bits may have changed since
               | Go
               | End(i: nat)              // of the i-th busy request
               | Resize(depth: nat)

  function Initial(depth: nat, n: nat): State {
    State(seq(depth, i => false), seq(depth, i => None), depth, seq(n, i => Queue(Idle, [])), false)
  }

  /** A request is started only when it is not tagged. */
  predicate Tagged(q: Queue, rq: nat) { exists i :: 0 <= i < |q.busy| && q.busy[i].rq == rq }

  /** Each queue runs one operation at a time, under its own lock. */
  predicate Possible(s: State, k: nat, a: Act) {
    && k < |s.queues|
    && match a
       case Start(rq) => s.queues[k].pc == Idle && !Tagged(s.queues[k], rq)
       case Find(tag) => s.queues[k].pc.Scan?
       case Go => !s.queues[k].pc.Idle? && !s.queues[k].pc.Scan?
       case End(i) => s.queues[k].pc == Idle && i < |s.queues[k].busy|
       case Resize(depth) => s.queues[k].pc == Idle
  }

  /** ... and touches only entries of the map. */
  predicate Enabled(s: State, k: nat, a: Act) {
    Possible(s, k, a) && |s.index| == |s.bits| && (a.Go? ==> s.queues[k].pc.tag < |s.bits|)
  }

  function Put(s: State, k: nat, q: Queue): State
    requires k < |s.queues|
  {
    s.(queues := s.queues[k := q])
  }

  function Without(busy: seq<Entry>, i: nat): seq<Entry>
    requires i < |busy|
  {
    busy[..i] + busy[i + 1..]
  }

  function Step(s: State, k: nat, a: Act): State
    requires Enabled(s, k, a)
  {
    var q := s.queues[k];
    match a
    case Start(rq) => Put(s, k, q.(pc := Scan(rq)))
    case Find(tag) => Put(s, k, q.(pc := if tag >= s.maxDepth then Idle else Test(q.pc.rq, tag)))
    case End(i) => Put(s, k, Queue(Ending(q.busy[i].rq, q.busy[i].tag), Without(q.busy, i)))
    case Resize(depth) =>
      if depth <= |s.bits| then s.(maxDepth := depth)
      else if |s.queues| != 1 then s                      // a shared map cannot be replaced
      else s.(bits := s.bits + seq(depth - |s.bits|, i => false), index := s.index + seq(depth - |s.bits|, i => None), maxDepth := depth)
    case Go =>
      match q.pc
      case Test(rq, tag) =>
        if s.bits[tag] then Put(s, k, q.(pc := Scan(rq))) else Put(s, k, q.(pc := Got(rq, tag))).(bits := s.bits[tag := true])
      case Got(rq, tag) => Put(s, k, q.(pc := Placed(rq, tag))).(index := s.index[tag := Some(Id(k, rq))])
      case Placed(rq, tag) => Put(s, k, Queue(Idle, [Entry(rq, tag)] + q.busy))
      case Ending(rq, tag) =>
        Put(s, k, q.(pc := Clearing(tag))).(index := s.index[tag := None], missing := s.missing || s.index[tag] == None)
      case Clearing(tag) =>
        Put(s, k, q.(pc := Idle)).(bits := s.bits[tag := false], missing := s.missing || !s.bits[tag])
      case _ => s
  }

  // ---------- who has which tag ----------

  /** A tag belongs to a busy request or to a queue in the middle of assigning or ending it. */
  datatype Owner = Busy(k: nat, rq: nat) | Pending(k: nat)

  predicate Holds(p: Pc, tag: nat) { (p.Got? || p.Placed? || p.Ending? || p.Clearing?) && p.tag == tag }

  /** What the index says while a queue has the tag in its hands. */
  predicate IndexFor(p: Pc, k: nat, slot: Option<Id>) {
    if p.Placed? || p.Ending? then slot == Some(Id(k, p.rq)) else slot == None
  }

  /** A bit is set exactly while its tag has an owner, there is one owner, and the index names its request. */
  ghost predicate TagOk(s: State, own: seq<Option<Owner>>, t: nat)
    requires t < |own| == |s.bits| == |s.index|
  {
    match own[t]
    case None => !s.bits[t] && s.index[t] == None
    case Some(Busy(k, rq)) => s.bits[t] && s.index[t] == Some(Id(k, rq)) && k < |s.queues| && Entry(rq, t) in s.queues[k].busy
    case Some(Pending(k)) => s.bits[t] && k < |s.queues| && Holds(s.queues[k].pc, t) && IndexFor(s.queues[k].pc, k, s.index[t])
  }

  ghost predicate QueueOk(q: Queue, k: nat, own: seq<Option<Owner>>) {
    && (forall e :: e in q.busy ==> e.tag < |own| && own[e.tag] == Some(Busy(k, e.rq)))
    && (forall i, j :: 0 <= i < j < |q.busy| ==> q.busy[i].rq != q.busy[j].rq)
    && (!q.pc.Idle? && !q.pc.Scan? ==> q.pc.tag < |own|)
    && (!q.pc.Idle? && !q.pc.Scan? && !q.pc.Test? ==> own[q.pc.tag] == Some(Pending(k)))
    && (!q.pc.Idle? && !q.pc.Clearing? ==> !Tagged(q, q.pc.rq))
  }

  ghost predicate Inv(s: State, own: seq<Option<Owner>>) {
    && |own| == |s.bits| == |s.index| && s.maxDepth <= |s.bits| && !s.missing
    && (forall t :: 0 <= t < |own| ==> TagOk(s, own, t))
    && (forall k :: 0 <= k < |s.queues| ==> QueueOk(s.queues[k], k, own))
  }

  function OwnAfter(s: State, k: nat, a: Act, own: seq<Option<Owner>>): seq<Option<Owner>>
    requires Enabled(s, k, a) && |own| == |s.bits|
  {
    var q := s.queues[k];
    match a
    case Start(_) => own
    case Find(_) => own
    case End(i) => if q.busy[i].tag < |own| then own[q.busy[i].tag := Some(Pending(k))] else own
    case Resize(depth) => if depth <= |own| || |s.queues| != 1 then own else own + seq(depth - |own|, i => None)
    case Go =>
      match q.pc
      case Test(_, tag) => if s.bits[tag] then own else own[tag := Some(Pending(k))]
      case Placed(rq, tag) => own[tag := Some(Busy(k, rq))]
      case Clearing(tag) => own[tag := None]
      case _ => own
  }

  /** A change of one tag's owner by queue k is nothing to another queue. */
  lemma OtherQueue(q: Queue, k': nat, k: nat, own: seq<Option<Owner>>, t: nat, o: Option<Owner>)
    requires QueueOk(q, k', own) && k' != k && t < |own|
    requires own[t] == None || own[t].value.k == k
    ensures QueueOk(q, k', own[t := o])
  {
  }

  lemma StartKeeps(s: State, k: nat, rq: nat, own: seq<Option<Owner>>)
    requires Inv(s, own) && Enabled(s, k, Start(rq))
    ensures Inv(Step(s, k, Start(rq)), own)
  {
    var s' := Step(s, k, Start(rq));
    assert QueueOk(s.queues[k], k, own);
    forall t | 0 <= t < |own| ensures TagOk(s', own, t) { assert TagOk(s, own, t); }
  }

  lemma FindKeeps(s: State, k: nat, tag: nat, own: seq<Option<Owner>>)
    requires Inv(s, own) && Enabled(s, k, Find(tag))
    ensures Inv(Step(s, k, Find(tag)), own)
  {
    var s' := Step(s, k, Find(tag));
    assert QueueOk(s.queues[k], k, own);
    forall t | 0 <= t < |own| ensures TagOk(s', own, t) { assert TagOk(s, own, t); }
  }

  lemma TestKeeps(s: State, k: nat, own: seq<Option<Owner>>)
    requires Inv(s, own) && Enabled(s, k, Go) && s.queues[k].pc.Test?
    ensures Inv(Step(s, k, Go), OwnAfter(s, k, Go, own))
  {
    var s', own' := Step(s, k, Go), OwnAfter(s, k, Go, own);
    var tag := s.queues[k].pc.tag;
    assert QueueOk(s.queues[k], k, own) && TagOk(s, own, tag);
    forall t | 0 <= t < |own| ensures TagOk(s', own', t) { assert TagOk(s, own, t); }
    forall j | 0 <= j < |s.queues| && j != k ensures QueueOk(s'.queues[j], j, own') {
      if !s.bits[tag] { OtherQueue(s.queues[j], j, k, own, tag, Some(Pending(k))); }
    }
  }

  lemma GotKeeps(s: State, k: nat, own: seq<Option<Owner>>)
    requires Inv(s, own) && Enabled(s, k, Go) && (s.queues[k].pc.Got? || s.queues[k].pc.Ending?)
    ensures Inv(Step(s, k, Go), own)
  {
    var s', tag := Step(s, k, Go), s.queues[k].pc.tag;
    assert QueueOk(s.queues[k], k, own) && TagOk(s, own, tag);
    forall t | 0 <= t < |own| ensures TagOk(s', own, t) { assert TagOk(s, own, t); }
  }

  lemma PlacedKeeps(s: State, k: nat, own: seq<Option<Owner>>)
    requires Inv(s, own) && Enabled(s, k, Go) && s.queues[k].pc.Placed?
    ensures Inv(Step(s, k, Go), OwnAfter(s, k, Go, own))
  {
    var s', own' := Step(s, k, Go), OwnAfter(s, k, Go, own);
    var q, tag := s.queues[k], s.queues[k].pc.tag;
    assert QueueOk(q, k, own) && TagOk(s, own, tag);
    forall t | 0 <= t < |own| ensures TagOk(s', own', t) { assert TagOk(s, own, t); }
    forall j | 0 <= j < |s.queues| && j != k ensures QueueOk(s'.queues[j], j, own') {
      OtherQueue(s.queues[j], j, k, own, tag, Some(Busy(k, q.pc.rq)));
    }
    forall i, j | 0 <= i < j < |s'.queues[k].busy| ensures s'.queues[k].busy[i].rq != s'.queues[k].busy[j].rq {
      if i == 0 { assert q.busy[j - 1] == s'.queues[k].busy[j]; }
    }
  }

  lemma ClearingKeeps(s: State, k: nat, own: seq<Option<Owner>>)
    requires Inv(s, own) && Enabled(s, k, Go) && s.queues[k].pc.Clearing?
    ensures Inv(Step(s, k, Go), OwnAfter(s, k, Go, own))
  {
    var s', own' := Step(s, k, Go), OwnAfter(s, k, Go, own);
    var q, tag := s.queues[k], s.queues[k].pc.tag;
    assert QueueOk(q, k, own) && TagOk(s, own, tag);
    forall t | 0 <= t < |own| ensures TagOk(s', own', t) { assert TagOk(s, own, t); }
    forall j | 0 <= j < |s.queues| && j != k ensures QueueOk(s'.queues[j], j, own') {
      OtherQueue(s.queues[j], j, k, own, tag, None);
    }
  }

  lemma EndKeeps(s: State, k: nat, i: nat, own: seq<Option<Owner>>)
    requires Inv(s, own) && Enabled(s, k, End(i))
    ensures Inv(Step(s, k, End(i)), OwnAfter(s, k, End(i), own))
  {
    var s', own' := Step(s, k, End(i)), OwnAfter(s, k, End(i), own);
    var q := s.queues[k];
    var e, rest := q.busy[i], Without(q.busy, i);
    assert QueueOk(q, k, own) && e in q.busy && TagOk(s, own, e.tag);
    InRest(q.busy, i);
    forall t | 0 <= t < |own| ensures TagOk(s', own', t) { assert TagOk(s, own, t); }
    forall j | 0 <= j < |s.queues| && j != k ensures QueueOk(s'.queues[j], j, own') {
      OtherQueue(s.queues[j], j, k, own, e.tag, Some(Pending(k)));
    }
  }

  lemma InRest(busy: seq<Entry>, i: nat)
    requires i < |busy| && forall a, b :: 0 <= a < b < |busy| ==> busy[a].rq != busy[b].rq
    ensures forall e :: e in Without(busy, i) <==> e in busy && e.rq != busy[i].rq
    ensures forall a, b :: 0 <= a < b < |Without(busy, i)| ==> Without(busy, i)[a].rq != Without(busy, i)[b].rq
  {
  }

  /** Neither shrinking nor growing touches a tag in use. */
  lemma ResizeKeeps(s: State, k: nat, depth: nat, own: seq<Option<Owner>>)
    requires Inv(s, own) && Enabled(s, k, Resize(depth))
    ensures Inv(Step(s, k, Resize(depth)), OwnAfter(s, k, Resize(depth), own))
    ensures var s' := Step(s, k, Resize(depth)); s.bits <= s'.bits && s.index <= s'.index && s'.queues == s.queues
    ensures var s' := Step(s, k, Resize(depth));
            if depth > |s.bits| && |s.queues| > 1 then s' == s else s'.maxDepth == depth <= |s'.bits|
  {
    var s', own' := Step(s, k, Resize(depth)), OwnAfter(s, k, Resize(depth), own);
    forall t | 0 <= t < |own'| ensures TagOk(s', own', t) { if t < |own| { assert TagOk(s, own, t); } }
    forall j | 0 <= j < |s.queues| ensures QueueOk(s'.queues[j], j, own') { assert QueueOk(s.queues[j], j, own); }
  }

  lemma StepKeeps(s: State, k: nat, a: Act, own: seq<Option<Owner>>)
    requires Inv(s, own) && Enabled(s, k, a)
    ensures Inv(Step(s, k, a), OwnAfter(s, k, a, own))
  {
    match a {
      case Start(rq) => StartKeeps(s, k, rq, own);
      case Find(tag) => FindKeeps(s, k, tag, own);
      case End(i) => EndKeeps(s, k, i, own);
      case Resize(depth) => ResizeKeeps(s, k, depth, own);
      case Go =>
        match s.queues[k].pc {
          case Test(_, _) => TestKeeps(s, k, own);
          case Got(_, _) => GotKeeps(s, k, own);
          case Placed(_, _) => PlacedKeeps(s, k, own);
          case Ending(_, _) => GotKeeps(s, k, own);
          case Clearing(_) => ClearingKeeps(s, k, own);
        }
    }
  }

  // ---------- runs ----------

  predicate Legal(s: State, run: seq<(nat, Act)>)
    decreases |run|
  {
    run == [] || (Enabled(s, run[0].0, run[0].1) && Legal(Step(s, run[0].0, run[0].1), run[1..]))
  }

  function Run(s: State, run: seq<(nat, Act)>): State
    requires Legal(s, run)
    decreases |run|
  {
    if run == [] then s else Run(Step(s, run[0].0, run[0].1), run[1..])
  }

  lemma {:induction false} RunKeeps(s: State, run: seq<(nat, Act)>, own: seq<Option<Owner>>) returns (own': seq<Option<Owner>>)
    requires Inv(s, own) && Legal(s, run)
    ensures Inv(Run(s, run), own')
    decreases |run|
  {
    if run == [] {
      own' := own;
    } else {
      StepKeeps(s, run[0].0, run[0].1, own);
      own' := RunKeeps(Step(s, run[0].0, run[0].1), run[1..], OwnAfter(s, run[0].0, run[0].1, own));
    }
  }

  /** The i-th busy request of queue k. */
  predicate IsBusy(s: State, k: nat, i: nat) { k < |s.queues| && i < |s.queues[k].busy| }

  /** Under every interleaving of any number of queues, also across resizing: no two tagged requests
      share a tag; a tagged request's bit is set and the index finds it; and no operation ever
      finds a tag missing that it should hold. */
  lemma TagsAreExclusive(depth: nat, n: nat, run: seq<(nat, Act)>, k: nat, i: nat, k': nat, i': nat)
    requires Legal(Initial(depth, n), run)
    ensures var s := Run(Initial(depth, n), run);
            && !s.missing
            && (IsBusy(s, k, i) && IsBusy(s, k', i') && s.queues[k].busy[i].tag == s.queues[k'].busy[i'].tag ==> k == k' && i == i')
            && (IsBusy(s, k, i) ==>
                  var e := s.queues[k].busy[i];
                  e.tag < |s.bits| == |s.index| && s.bits[e.tag] && s.index[e.tag] == Some(Id(k, e.rq)))
  {
    var own := RunKeeps(Initial(depth, n), run, seq(depth, i => None));
    var s := Run(Initial(depth, n), run);
    if IsBusy(s, k, i) {
      assert QueueOk(s.queues[k], k, own) && s.queues[k].busy[i] in s.queues[k].busy;
      assert TagOk(s, own, s.queues[k].busy[i].tag);
    }
    if IsBusy(s, k', i') {
      assert QueueOk(s.queues[k'], k', own) && s.queues[k'].busy[i'] in s.queues[k'].busy;
    }
  }

  /** After every run, also across resizing, a tag in hand is an entry of the map, so no possible
      step is ruled out. */
  lemma TagsStayInTheMap(depth: nat, n: nat, run: seq<(nat, Act)>, k: nat, a: Act)
    requires Legal(Initial(depth, n), run) && Possible(Run(Initial(depth, n), run), k, a)
    ensures Enabled(Run(Initial(depth, n), run), k, a)
  {
    var own := RunKeeps(Initial(depth, n), run, seq(depth, i => None));
    assert QueueOk(Run(Initial(depth, n), run).queues[k], k, own);
  }

  /** A set bit always has an owner: a tagged request, or a queue in the middle of an operation. So
      once no queue is, every set bit is a tagged request's. */
  lemma NoTagIsLost(depth: nat, n: nat, run: seq<(nat, Act)>, t: nat)
    requires Legal(Initial(depth, n), run)
    ensures var s := Run(Initial(depth, n), run);
            t < |s.bits| && s.bits[t] && (forall k :: 0 <= k < |s.queues| ==> s.queues[k].pc == Idle) ==>
              exists k, rq :: 0 <= k < |s.queues| && Entry(rq, t) in s.queues[k].busy
  {
    var own := RunKeeps(Initial(depth, n), run, seq(depth, i => None));
    var s := Run(Initial(depth, n), run);
    if t < |s.bits| && s.bits[t] {
      assert TagOk(s, own, t);
      if own[t].value.Busy? {
        assert Entry(own[t].value.rq, t) in s.queues[own[t].value.k].busy;
      } else {
        assert s.queues[own[t].value.k].pc != Idle;
      }
    }
  }

  // ---------- one queue's operations, in place ----------

  /** The tag map and one queue that uses it. */
  class TagQueue {
    var tagMap: seq<bool>
    var tagIndex: seq<Option<nat>>
    var maxDepth: nat
    var busyList: seq<Entry>
    /** The head part of the dispatch queue. */
    var queueHead: seq<nat>

    ghost predicate Valid()
      reads this
    {
      && |tagIndex| == |tagMap| && maxDepth <= |tagMap|
      && (forall i, j :: 0 <= i < j < |busyList| ==> busyList[i].rq != busyList[j].rq && busyList[i].tag != busyList[j].tag)
      && (forall e :: e in busyList ==> e.tag < |tagMap| && tagMap[e.tag] && tagIndex[e.tag] == Some(e.rq))
    }

    /** blk_queue_start_tag with no other queue in between: the lowest free tag below the limit. */
    method StartTag(rq: nat) returns (full: bool, tag: nat)
      requires Valid() && forall e :: e in busyList ==> e.rq != rq
      modifies `tagMap, `tagIndex, `busyList
      ensures Valid()
      ensures full <==> forall t :: 0 <= t < maxDepth ==> old(tagMap)[t]
      ensures full ==> tagMap == old(tagMap) && tagIndex == old(tagIndex) && busyList == old(busyList)
      ensures !full ==> tag < maxDepth && !old(tagMap)[tag] && (forall t :: 0 <= t < tag ==> old(tagMap)[t])
      ensures !full ==> tagMap == old(tagMap)[tag := true] && tagIndex == old(tagIndex)[tag := Some(rq)]
      ensures !full ==> busyList == [Entry(rq, tag)] + old(busyList)
    {
      tag := 0;
      while tag < maxDepth && tagMap[tag]
        invariant tag <= maxDepth && forall t :: 0 <= t < tag ==> tagMap[t]
      {
        tag := tag + 1;
      }
      full := tag >= maxDepth;
      if !full {
        tagMap := tagMap[tag := true];
        tagIndex := tagIndex[tag := Some(rq)];
        busyList := [Entry(rq, tag)] + busyList;
      }
    }

    /** blk_queue_end_tag for the i-th busy request; its complaints are about tags that are not held. */
    method EndTag(i: nat)
      requires Valid() && i < |busyList|
      modifies `tagMap, `tagIndex, `busyList
      ensures Valid() && busyList == old(busyList)[..i] + old(busyList)[i + 1..]
      ensures tagMap == old(tagMap)[old(busyList)[i].tag := false] && tagIndex == old(tagIndex)[old(busyList)[i].tag := None]
    {
      var e, rest := busyList[i], busyList[..i] + busyList[i + 1..];
      assert forall j :: 0 <= j < |busyList| ==> busyList[j] in busyList;
      assert forall j :: 0 <= j < |rest| ==> rest[j] == busyList[if j < i then j else j + 1];
      busyList := rest;
      tagIndex := tagIndex[e.tag := None];
      tagMap := tagMap[e.tag := false];
    }

    /** blk_queue_invalidate_tags outside a barrier sequence: every busy request is put back, in the
        order in which they were started, ahead of everything at the queue's head. */
    method InvalidateTags()
      requires Valid()
      modifies `tagMap, `tagIndex, `busyList, `queueHead
      ensures Valid() && busyList == [] && |tagMap| == |old(tagMap)|
      ensures queueHead == InStartOrder(old(busyList)) + old(queueHead)
      ensures Freed(old(tagMap), tagMap, old(busyList))
    {
      hide Freed, InStartOrder;
      ghost var all, map0 := busyList, tagMap;
      ghost var n := 0;
      FreedNone(map0);
      while busyList != []
        invariant Valid() && n <= |all| && busyList == all[n..] && |tagMap| == |map0|
        invariant queueHead == InStartOrder(all[..n]) + old(queueHead) && Freed(map0, tagMap, all[..n])
        decreases |busyList|
      {
        var rq := busyList[0].rq;
        assert all[..n + 1] == all[..n] + [all[n]];
        StartedLater(all[..n], all[n]);
        assert busyList[0] in busyList;
        FreedOneMore(map0, tagMap, all[..n], all[n]);
        EndTag(0);
        assert busyList == all[n + 1..];
        queueHead := [rq] + queueHead;
        n := n + 1;
      }
      assert all[..n] == all;
    }
  }

  /** Exactly the tags of these entries have become free. */
  ghost predicate Freed(was: seq<bool>, now: seq<bool>, entries: seq<Entry>) {
    |now| == |was| && forall t :: 0 <= t < |now| ==> now[t] == (was[t] && forall e :: e in entries ==> e.tag != t)
  }

  lemma FreedNone(m: seq<bool>)
    ensures Freed(m, m, []) && InStartOrder([]) == []
  {
  }

  lemma FreedOneMore(was: seq<bool>, now: seq<bool>, entries: seq<Entry>, e: Entry)
    requires Freed(was, now, entries) && e.tag < |now|
    ensures Freed(was, now[e.tag := false], entries + [e])
  {
    assert e in entries + [e];
  }

  /** The busy list read from its end: the order in which the requests were started. */
  function InStartOrder(busy: seq<Entry>): seq<nat> { if busy == [] then [] else InStartOrder(busy[1..]) + [busy[0].rq] }

  lemma {:induction false} StartedLater(busy: seq<Entry>, e: Entry)
    ensures InStartOrder(busy + [e]) == [e.rq] + InStartOrder(busy)
  {
    if busy == [] {
      assert busy + [e] == [e] && [e][1..] == [];
    } else {
      assert (busy + [e])[1..] == busy[1..] + [e];
      StartedLater(busy[1..], e);
    }
  }
}
