/** The order of the service tree (block/cfq-iosched.c): real-time queues first, idle ones last, and
    within a class by the service time; and what follows for the turns the queues get. A queue keeps
    its class. */
module CfqOrder {
  import opened Options
  import opened SortTree
  import opened Cfq
  import opened CfqTurns

  datatype Class = Rt | Be | Idle

  datatype Rank = Rank(kind: Class, key: int)

  function Level(c: Class): nat { match c case Rt => 0 case Be => 1 case Idle => 2 }

  /** The walk of cfq_service_tree_add turns left at a queue that ranks behind. */
  predicate RanksBefore(a: Rank, b: Rank) { Level(a.kind) < Level(b.kind) || (a.kind == b.kind && a.key < b.key) }

  // ---------- the service time ----------

  const CFQ_SLICE_SCALE := 5
  const IOPRIO_BE_NR := 8

  /** cfq_prio_slice: a longer slice for a better priority. */
  function PrioSlice(base: nat, prio: nat): int { base + base / CFQ_SLICE_SCALE * (4 - prio) }

  /** cfq_slice_offset, for a queue with slice length `base`. */
  function SliceOffset(busy: nat, syncBase: nat, base: nat, prio: nat): int { (busy - 1) * (PrioSlice(syncBase, 0) - PrioSlice(base, prio)) }

  /** The key of a queue that is not idle and does not preempt. */
  function ServiceKey(now: nat, resid: int, busy: nat, syncBase: nat, base: nat, prio: nat): int {
    SliceOffset(busy, syncBase, base, prio) + now + resid
  }

  /** A worse priority, a shorter asynchronous slice, never brings a queue's time forward. */
  lemma NotBeforeNow(now: nat, resid: int, busy: nat, syncBase: nat, base: nat, prio: nat)
    requires busy >= 1 && base <= syncBase && prio < IOPRIO_BE_NR
    ensures ServiceKey(now, resid, busy, syncBase, base, prio) >= now + resid
    ensures busy == 1 ==> ServiceKey(now, resid, busy, syncBase, base, prio) == now + resid
  {
    SlicesShrink(syncBase, base, prio);
    Product(busy - 1, PrioSlice(syncBase, 0) - PrioSlice(base, prio));
  }

  /** Among queues with slices of the same length, a better priority never comes later. */
  lemma BetterPriorityFirst(now: nat, resid: int, busy: nat, syncBase: nat, base: nat, prio: nat, worse: nat)
    requires busy >= 1 && prio <= worse
    ensures ServiceKey(now, resid, busy, syncBase, base, prio) <= ServiceKey(now, resid, busy, syncBase, base, worse)
  {
    var x := base / CFQ_SLICE_SCALE;
    Product(x, worse - prio);
    assert x * (4 - prio) - x * (4 - worse) == x * (worse - prio);
    var a, b := PrioSlice(base, prio), PrioSlice(base, worse);
    Product(busy - 1, a - b);
    assert (busy - 1) * (PrioSlice(syncBase, 0) - b) - (busy - 1) * (PrioSlice(syncBase, 0) - a) == (busy - 1) * (a - b);
  }

  lemma SlicesShrink(syncBase: nat, base: nat, prio: nat)
    requires base <= syncBase
    ensures PrioSlice(base, prio) <= PrioSlice(syncBase, 0)
  {
    var x, y := base / CFQ_SLICE_SCALE, syncBase / CFQ_SLICE_SCALE;
    assert x <= y;
    assert x * (4 - prio) == x * 4 - x * prio;
    Product(x, prio);
  }

  lemma Product(a: int, b: int)
    requires a >= 0 && b >= 0
    ensures a * b >= 0
  {
  }

  // ---------- the order ----------

  ghost predicate InOrder(tree: seq<nat>, ranks: seq<Rank>) {
    && Distinct(tree)
    && (forall i :: 0 <= i < |tree| ==> tree[i] < |ranks|)
    && (forall i, j :: 0 <= i < j < |tree| ==> !RanksBefore(ranks[tree[j]], ranks[tree[i]]))
  }

  /** Where the walk ends: before the first queue that ranks behind r. */
  function WalkPlace(tree: seq<nat>, ranks: seq<Rank>, r: Rank): (p: nat)
    ensures p <= |tree|
  {
    if tree == [] || tree[0] >= |ranks| || RanksBefore(r, ranks[tree[0]]) then 0 else 1 + WalkPlace(tree[1..], ranks, r)
  }

  /** cfq_service_tree_add: a queue whose key is the same stays where it is. */
  function ServicePlace(tree: seq<nat>, ranks: seq<Rank>, k: nat, r: Rank): nat {
    if k in tree && k < |ranks| && ranks[k].key == r.key then Ahead(tree, k) else WalkPlace(Drop(tree, k), ranks, r)
  }

  lemma {:induction false} WalkSplits(tree: seq<nat>, ranks: seq<Rank>, r: Rank)
    requires InOrder(tree, ranks)
    ensures var p := WalkPlace(tree, ranks, r);
            && (forall i :: 0 <= i < p ==> !RanksBefore(r, ranks[tree[i]]))
            && (forall i :: p <= i < |tree| ==> RanksBefore(r, ranks[tree[i]]))
  {
    if tree != [] && !RanksBefore(r, ranks[tree[0]]) {
      var rest := tree[1..];
      RestInOrder(tree, ranks);
      WalkSplits(rest, ranks, r);
      var p := WalkPlace(tree, ranks, r);
      forall i | 0 <= i < p ensures !RanksBefore(r, ranks[tree[i]]) { if i > 0 { assert tree[i] == rest[i - 1]; } }
      forall i | p <= i < |tree| ensures RanksBefore(r, ranks[tree[i]]) { assert tree[i] == rest[i - 1]; }
    }
  }

  lemma RestInOrder(tree: seq<nat>, ranks: seq<Rank>)
    requires tree != [] && InOrder(tree, ranks)
    ensures InOrder(tree[1..], ranks)
  {
  }

  lemma {:induction false} DropInOrder(tree: seq<nat>, ranks: seq<Rank>, k: nat)
    requires InOrder(tree, ranks)
    ensures InOrder(Drop(tree, k), ranks) && k !in Drop(tree, k)
  {
    DropIs(tree, k);
    if tree != [] {
      var rest := tree[1..];
      RestInOrder(tree, ranks);
      if tree[0] != k {
        DropInOrder(rest, ranks, k);
        DropIs(rest, k);
        var d := Drop(rest, k);
        assert Drop(tree, k) == [tree[0]] + d;
        forall i, j | 0 <= i < j < |Drop(tree, k)| ensures !RanksBefore(ranks[Drop(tree, k)[j]], ranks[Drop(tree, k)[i]]) {
          assert d[j - 1] in rest;
          var m :| 0 <= m < |rest| && rest[m] == d[j - 1];
          assert tree[m + 1] == d[j - 1];
          if i > 0 { assert Drop(tree, k)[i] == d[i - 1]; }
        }
      }
    }
  }

  lemma PlacedInOrder(tree: seq<nat>, ranks: seq<Rank>, k: nat, r: Rank)
    requires InOrder(tree, ranks) && k !in tree && k < |ranks|
    ensures InOrder(Placed(tree, k, WalkPlace(tree, ranks, r)), ranks[k := r])
  {
    WalkSplits(tree, ranks, r);
    var p := WalkPlace(tree, ranks, r);
    var t, ranks' := Placed(tree, k, p), ranks[k := r];
    PlacedAt(tree, k, p);
    hide WalkPlace, Placed, RanksBefore;
    forall i | 0 <= i < |t| ensures t[i] < |ranks| && (t[i] == k <==> i == p) { }
    forall i, j | 0 <= i < j < |t| ensures t[i] != t[j] && !RanksBefore(ranks'[t[j]], ranks'[t[i]]) {
      if i == p {
        NotBoth(r, ranks[t[j]]);
      } else if j != p {
        assert ranks'[t[i]] == ranks[t[i]] && ranks'[t[j]] == ranks[t[j]];
      }
    }
  }

  lemma PlacedAt(tree: seq<nat>, k: nat, p: nat)
    requires p <= |tree|
    ensures var t := Placed(tree, k, p);
            |t| == |tree| + 1 && forall i :: 0 <= i < |t| ==> t[i] == if i < p then tree[i] else if i == p then k else tree[i - 1]
  {
  }

  lemma NotBoth(a: Rank, b: Rank)
    requires RanksBefore(a, b)
    ensures !RanksBefore(b, a)
  {
  }

  /** A queue that keeps its place: taken out and put back. */
  lemma {:induction false} BackInPlace(tree: seq<nat>, k: nat)
    requires k in tree && Distinct(tree)
    ensures Placed(Drop(tree, k), k, Ahead(tree, k)) == tree
  {
    var rest := tree[1..];
    if tree[0] != k {
      assert forall i, j :: 0 <= i < j < |rest| ==> rest[i] == tree[i + 1] && rest[j] == tree[j + 1];
      BackInPlace(rest, k);
      assert Drop(tree, k) == [tree[0]] + Drop(rest, k);
      AheadFits(rest, k);
      DropIs(rest, k);
    }
  }

  lemma {:induction false} AheadFits(tree: seq<nat>, k: nat)
    requires k in tree
    ensures Ahead(tree, k) < |tree| && tree[Ahead(tree, k)] == k
  {
    if tree[0] != k { AheadFits(tree[1..], k); }
  }

  /** The queue goes to its place, and the tree stays in order. */
  lemma ServiceAddKeeps(tree: seq<nat>, ranks: seq<Rank>, k: nat, r: Rank)
    requires InOrder(tree, ranks) && k < |ranks| && r.kind == ranks[k].kind
    ensures InOrder(Placed(Drop(tree, k), k, ServicePlace(tree, ranks, k, r)), ranks[k := r])
  {
    hide InOrder, WalkPlace, Drop, Ahead;
    DropInOrder(tree, ranks, k);
    if k in tree && ranks[k].key == r.key {
      assert ranks[k := r] == ranks;
      OrderedDistinct(tree, ranks);
      BackInPlace(tree, k);
    } else {
      PlacedInOrder(Drop(tree, k), ranks, k, r);
    }
  }

  lemma OrderedDistinct(tree: seq<nat>, ranks: seq<Rank>)
    requires InOrder(tree, ranks)
    ensures Distinct(tree)
  {
  }

  /** A queue that ranks behind j goes behind j. */
  lemma GoesBehind(tree: seq<nat>, ranks: seq<Rank>, k: nat, r: Rank, j: nat)
    requires InOrder(tree, ranks) && k < |ranks| && r.kind == ranks[k].kind
    requires j in tree && j != k && j < |ranks| && RanksBefore(ranks[j], r)
    ensures !Precedes(Placed(Drop(tree, k), k, ServicePlace(tree, ranks, k, r)), k, j)
  {
    var t, ranks' := Placed(Drop(tree, k), k, ServicePlace(tree, ranks, k, r)), ranks[k := r];
    ServiceAddKeeps(tree, ranks, k, r);
    hide ServicePlace;
    DropIs(tree, k);
    assert j in t;
    EarlierRanks(t, ranks', k, j);
  }

  lemma EarlierRanks(tree: seq<nat>, ranks: seq<Rank>, k: nat, j: nat)
    requires InOrder(tree, ranks) && j in tree
    ensures Precedes(tree, k, j) ==> k < |ranks| && j < |ranks| && !RanksBefore(ranks[j], ranks[k])
  {
    if Precedes(tree, k, j) { var a, b := PrecedesMeans(tree, k, j); }
  }

  lemma {:induction false} PrecedesMeans(tree: seq<nat>, k: nat, j: nat) returns (a: nat, b: nat)
    requires Precedes(tree, k, j) && j in tree
    ensures a < b < |tree| && tree[a] == k && tree[b] == j
  {
    if tree[0] == k {
      a := 0;
      b :| 0 <= b < |tree| && tree[b] == j;
    } else {
      a, b := PrecedesMeans(tree[1..], k, j);
      a, b := a + 1, b + 1;
    }
  }

  // ---------- runs ----------

  /** The device with the rank of each of its queues. */
  datatype Ranked = Ranked(s: State, ranks: seq<Rank>)

  /** A step, the key it gives to the queue it places, and the class of a new queue. */
  datatype KeyedOp = KeyedOp(op: Op, key: int, kind: Class)

  function NewRank(x: Ranked, o: KeyedOp, k: nat): Rank
    requires k < |x.ranks|
  {
    Rank(x.ranks[k].kind, o.key)
  }

  /** The step is possible, and a queue that is placed goes where its rank says. */
  predicate Fits(x: Ranked, o: KeyedOp) {
    && Enabled(x.s, o.op)
    && (ChangeOf(x.s, o.op).In? ==>
          var k := ChangeOf(x.s, o.op).k;
          k < |x.ranks| && ChangeOf(x.s, o.op).place == ServicePlace(x.s.service.tree, x.ranks, k, NewRank(x, o, k)))
  }

  function RankedStep(x: Ranked, o: KeyedOp): Ranked
    requires Fits(x, o)
  {
    Ranked(Step(x.s, o.op),
           match ChangeOf(x.s, o.op)
           case In(k, _) => x.ranks[k := NewRank(x, o, k)]
           case _ => if o.op.NewQueueFor? then x.ranks + [Rank(o.kind, o.key)] else x.ranks)
  }

  ghost predicate RankedInv(x: Ranked) { Inv(x.s) && |x.ranks| == |x.s.queues| && InOrder(x.s.service.tree, x.ranks) }

  lemma QueuesStay(s: State, op: Op)
    requires Inv(s) && Enabled(s, op)
    ensures |Step(s, op).queues| == |s.queues| + Bit(op.NewQueueFor?)
  {
    hide InsertRequest, Reposition, SelectQueue, QueueOk, Removed;
    match op {
      case Insert(k, rq, p) => InsertInOrder(s, k, rq, p);
      case FrontMerge(k, rq, sector, p) => RepositionInOrder(s, k, rq, sector, p);
      case Select(c) => SelectedHasRequests(s, c);
      case _ =>
    }
  }

  lemma RankedStepKeeps(x: Ranked, o: KeyedOp)
    requires RankedInv(x) && Fits(x, o)
    ensures RankedInv(RankedStep(x, o))
  {
    hide Inv, Step, ChangeOf, InOrder, ServicePlace, Placed, Drop;
    StepKeeps(x.s, o.op);
    StepChanges(x.s, o.op);
    QueuesStay(x.s, o.op);
    var tree := x.s.service.tree;
    match ChangeOf(x.s, o.op) {
      case Same => if o.op.NewQueueFor? { MoreRanks(tree, x.ranks, Rank(o.kind, o.key)); }
      case Out(k) =>
        DropInOrder(tree, x.ranks, k);
        OnlyRemoves(x.s, o.op);
      case In(k, p) => ServiceAddKeeps(tree, x.ranks, k, NewRank(x, o, k)); OnlyRemoves(x.s, o.op);
    }
  }

  lemma OnlyRemoves(s: State, op: Op)
    requires Enabled(s, op)
    ensures op.NewQueueFor? ==> ChangeOf(s, op) == Same
  {
  }

  lemma MoreRanks(tree: seq<nat>, ranks: seq<Rank>, r: Rank)
    requires InOrder(tree, ranks)
    ensures InOrder(tree, ranks + [r])
  {
  }

  predicate RankedLegal(x: Ranked, os: seq<KeyedOp>)
    decreases |os|
  {
    os == [] || (Fits(x, os[0]) && RankedLegal(RankedStep(x, os[0]), os[1..]))
  }

  function RankedRun(x: Ranked, os: seq<KeyedOp>): Ranked
    requires RankedLegal(x, os)
    decreases |os|
  {
    if os == [] then x else RankedRun(RankedStep(x, os[0]), os[1..])
  }

  lemma {:induction false} RankedRunKeeps(x: Ranked, os: seq<KeyedOp>)
    requires RankedInv(x) && RankedLegal(x, os)
    ensures RankedInv(RankedRun(x, os))
    decreases |os|
  {
    hide RankedInv, RankedStep, Fits;
    if os != [] {
      RankedStepKeeps(x, os[0]);
      RankedRunKeeps(RankedStep(x, os[0]), os[1..]);
    }
  }

  function NoQueues(): Ranked { Ranked(State([], Service([], None, 0), None), []) }

  /** In every run the tree holds the queues with requests in the order of class and service time; and
      when it is another queue's turn, no queue with requests ranks before the one selected. */
  lemma BestIsServed(os: seq<KeyedOp>, o: KeyedOp, j: nat)
    requires RankedLegal(NoQueues(), os) && Fits(RankedRun(NoQueues(), os), o)
    ensures var x := RankedRun(NoQueues(), os);
            InOrder(x.s.service.tree, x.ranks) && forall k :: k in x.s.service.tree <==> 0 <= k < |x.s.queues| && x.s.queues[k].sort != []
    ensures var x := RankedRun(NoQueues(), os);
            var x' := RankedStep(x, o);
            IsTurn(x.s, o.op) && j < |x'.s.queues| && x'.s.queues[j].sort != [] ==>
              && x'.s.active.Some? && x'.s.active.value < |x'.ranks| && j < |x'.ranks|
              && !RanksBefore(x'.ranks[j], x'.ranks[x'.s.active.value])
  {
    RankedRunKeeps(NoQueues(), os);
    var x := RankedRun(NoQueues(), os);
    hide RankedRun, RankedLegal;
    RankedStepKeeps(x, o);
    StepChanges(x.s, o.op);
    TreeIsBusy(x.s);
    var x' := RankedStep(x, o);
    if IsTurn(x.s, o.op) && j < |x'.s.queues| && x'.s.queues[j].sort != [] {
      OnTree(x'.s, j);
      hide Inv, Step, ChangeOf, Fits, RankedStep;
      FirstRanks(x'.s.service.tree, x'.ranks, j);
    }
  }

  lemma TreeIsBusy(s: State)
    requires Inv(s)
    ensures forall k :: k in s.service.tree <==> 0 <= k < |s.queues| && s.queues[k].sort != []
  {
    forall k | 0 <= k < |s.queues| ensures k in s.service.tree <==> s.queues[k].sort != [] { OnTree(s, k); }
  }

  lemma FirstRanks(tree: seq<nat>, ranks: seq<Rank>, j: nat)
    requires InOrder(tree, ranks) && j in tree
    ensures tree != [] && tree[0] < |ranks| && j < |ranks| && !RanksBefore(ranks[j], ranks[tree[0]])
  {
    if tree[0] != j { assert Precedes(tree, tree[0], j); EarlierRanks(tree, ranks, tree[0], j); }
  }

  // ---------- every queue gets its turn ----------

  function OpsOf(os: seq<KeyedOp>): seq<Op> { if os == [] then [] else [os[0].op] + OpsOf(os[1..]) }

  lemma {:induction false} PlainlyLegal(x: Ranked, os: seq<KeyedOp>)
    requires RankedLegal(x, os)
    ensures Legal(x.s, OpsOf(os))
    decreases |os|
  {
    if os != [] {
      PlainlyLegal(RankedStep(x, os[0]), os[1..]);
      assert OpsOf(os)[1..] == OpsOf(os[1..]);
    }
  }

  /** Every queue that is placed ranks behind j. */
  predicate PlacedBehind(x: Ranked, j: nat, os: seq<KeyedOp>)
    requires RankedLegal(x, os)
    decreases |os|
  {
    os == [] ||
    (&& (ChangeOf(x.s, os[0].op).In? ==> j < |x.ranks| && RanksBefore(x.ranks[j], NewRank(x, os[0], ChangeOf(x.s, os[0].op).k)))
     && PlacedBehind(RankedStep(x, os[0]), j, os[1..]))
  }

  lemma NotOvertaken(x: Ranked, o: KeyedOp, j: nat)
    requires RankedInv(x) && Fits(x, o) && j < |x.s.queues| && x.s.queues[j].sort != []
    requires ChangeOf(x.s, o.op) != Same ==> ChangeOf(x.s, o.op).k != j
    requires ChangeOf(x.s, o.op).In? ==> RanksBefore(x.ranks[j], NewRank(x, o, ChangeOf(x.s, o.op).k))
    ensures !Overtakes(x.s.service.tree, ChangeOf(x.s, o.op), j)
  {
    OnTree(x.s, j);
    hide Inv, ServicePlace, ChangeOf;
    var ch := ChangeOf(x.s, o.op);
    if ch.In? { GoesBehind(x.s.service.tree, x.ranks, ch.k, NewRank(x, o, ch.k), j); }
  }

  lemma {:induction false} NobodyOvertakes(x: Ranked, j: nat, os: seq<KeyedOp>)
    requires RankedInv(x) && RankedLegal(x, os) && PlacedBehind(x, j, os) && Legal(x.s, OpsOf(os)) && PassedOver(x.s, j, OpsOf(os))
    ensures Overtakings(x.s, j, OpsOf(os)) == 0
    decreases |os|
  {
    if os != [] {
      assert OpsOf(os)[0] == os[0].op && OpsOf(os)[1..] == OpsOf(os[1..]);
      hide RankedInv, ChangeOf, Step, Overtakes;
      RankedStepKeeps(x, os[0]);
      NobodyOvertakes(RankedStep(x, os[0]), j, os[1..]);
      RanksBound(x);
      NotOvertaken(x, os[0], j);
    }
  }

  lemma RanksBound(x: Ranked)
    requires RankedInv(x)
    ensures |x.ranks| == |x.s.queues|
  {
  }

  /** While queue j has requests and every queue that is placed ranks behind it, j is passed over in at
      most twice as many turns as there were queues before it, plus one. That is so from the moment the
      clock has passed j's key, for queues of its class that expire or come with nothing left over
      (KeyPassesBy), until a queue of a better class comes or one preempts. */
  lemma EveryQueueGetsItsTurn(x: Ranked, j: nat, os: seq<KeyedOp>)
    requires RankedInv(x) && RankedLegal(x, os) && PlacedBehind(x, j, os)
    ensures Legal(x.s, OpsOf(os))
    ensures PassedOver(x.s, j, OpsOf(os)) ==> Turns(x.s, OpsOf(os)) <= 2 * Ahead(x.s.service.tree, j) + 1
  {
    PlainlyLegal(x, os);
    if PassedOver(x.s, j, OpsOf(os)) {
      NobodyOvertakes(x, j, os);
      TurnComes(x.s, j, OpsOf(os));
    }
  }

  /** An idle queue goes behind everything: its key is that of the last queue and a delay. */
  lemma IdleGoesLast(tree: seq<nat>, ranks: seq<Rank>, delay: nat, j: nat)
    requires InOrder(tree, ranks) && j in tree && delay > 0
    ensures j < |ranks| && tree[|tree| - 1] < |ranks| && RanksBefore(ranks[j], Rank(Idle, ranks[tree[|tree| - 1]].key + delay))
  {
    AheadFits(tree, j);
    var i, last := Ahead(tree, j), |tree| - 1;
    if i < last { assert !RanksBefore(ranks[tree[last]], ranks[tree[i]]); }
  }

  /** A queue placed after the clock has passed j's key ranks behind j, if it is of j's class or a lower
      one and has no negative rest of a slice. */
  lemma KeyPassesBy(j: Rank, kind: Class, now: nat, resid: int, busy: nat, syncBase: nat, base: nat, prio: nat)
    requires now > j.key && resid >= 0 && Level(kind) >= Level(j.kind)
    requires busy >= 1 && base <= syncBase && prio < IOPRIO_BE_NR
    ensures RanksBefore(j, Rank(kind, ServiceKey(now, resid, busy, syncBase, base, prio)))
  {
    NotBeforeNow(now, resid, busy, syncBase, base, prio);
  }
}
