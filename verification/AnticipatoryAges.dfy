/** The anticipatory scheduler's FIFO is in order of age: what the code takes for the oldest request of a
    direction is the one that has waited longest, a merged request counting from its older part
    (block/as-iosched.c). */
module AnticipatoryAges {
  import opened Options
  import opened SortTree
  import opened Anticipatory
  import opened AnticipatoryLanes

  /** A direction, when each request came, and the number of arrivals. */
  datatype Aged = Aged(l: Lane, came: map<nat, nat>, clock: nat)

  /** A request comes once at a time, and a merge keeps the earlier place. */
  predicate Fits(x: Aged, op: Op) {
    && Enabled(x.l, op)
    && (op.Add? ==> forall r :: r in x.l.fifo ==> r.id != op.rq.id)
    && (op.Merge? ==>
          op.rq.id in x.came && op.other.id in x.came && op.rq.id != op.other.id
          && (op.sooner <==> x.came[op.other.id] < x.came[op.rq.id]))
  }

  function Next(x: Aged, op: Op): Aged
    requires Fits(x, op)
  {
    match op
    case Add(rq, _) => Aged(Step(x.l, op), x.came[rq.id := x.clock], x.clock + 1)
    case Merge(rq, other, sooner) => Aged(Step(x.l, op), if sooner then x.came[rq.id := x.came[other.id]] else x.came, x.clock)
    case _ => Aged(Step(x.l, op), x.came, x.clock)
  }

  /** Oldest first. */
  ghost predicate ByAge(f: seq<Request>, came: map<nat, nat>) {
    && (forall r :: r in f ==> r.id in came)
    && (forall i, j :: 0 <= i < j < |f| ==> came[f[i].id] < came[f[j].id])
  }

  ghost predicate Inv(x: Aged) { Linked(x.l) && ByAge(x.l.fifo, x.came) && Past(x.l.fifo, x.came, x.clock) }

  ghost predicate Past(f: seq<Request>, came: map<nat, nat>, clock: nat) { forall r :: r in f ==> r.id in came && came[r.id] < clock }

  // ---------- lists ----------

  lemma {:induction false} FirstIndex(list: seq<Request>, x: Request)
    requires x in list
    ensures forall i :: 0 <= i < IndexOf(list, x) ==> list[i] != x
  {
    if list[0] != x {
      FirstIndex(list[1..], x);
      forall i | 0 <= i < IndexOf(list, x) ensures list[i] != x { if i > 0 { assert list[i] == list[1..][i - 1]; } }
    }
  }

  lemma {:induction false} IndexIs(list: seq<Request>, x: Request, k: nat)
    requires k < |list| && list[k] == x && forall i :: 0 <= i < k ==> list[i] != x
    ensures IndexOf(list, x) == k
  {
    FirstIndex(list, x);
    var i := IndexOf(list, x);
    assert i >= k;
  }

  lemma DroppedAges(f: seq<Request>, x: Request, came: map<nat, nat>)
    requires ByAge(f, came)
    ensures ByAge(Dropped(f, x), came) && forall r :: r in Dropped(f, x) ==> r in f
    ensures forall r :: r in Dropped(f, x) && x in f ==> r.id != x.id
  {
    hide IndexOf;
  }

  lemma RenamedAges(f: seq<Request>, x: Request, x': Request, came: map<nat, nat>, came': map<nat, nat>)
    requires ByAge(f, came) && x in f && x'.id in came' && came'[x'.id] == came[x.id]
    requires forall r :: r in f && r != x ==> r.id in came' && came'[r.id] == came[r.id]
    ensures ByAge(Renamed(f, x, x'), came')
    ensures forall r :: r in Renamed(f, x, x') ==> r == x' || r in f
  {
    FirstIndex(f, x);
    hide IndexOf;
    var k, g := IndexOf(f, x), Renamed(f, x, x');
    forall i | 0 <= i < |g| ensures g[i].id in came' && came'[g[i].id] == came[f[i].id] {
      if i != k { AgesDiffer(f, came, i, k); }
    }
  }

  lemma AgesDiffer(f: seq<Request>, came: map<nat, nat>, i: nat, j: nat)
    requires ByAge(f, came) && i < |f| && j < |f| && i != j
    ensures f[i] != f[j]
  {
    assert if i < j then came[f[i].id] < came[f[j].id] else came[f[j].id] < came[f[i].id];
  }

  /** Moved behind the other one, which is then dropped, is put in its place. */
  lemma TakesThePlace(f: seq<Request>, rq: Request, other: Request)
    requires rq != other && other in Dropped(f, rq)
    ensures Dropped(MovedBehind(f, rq, other), other) == Renamed(Dropped(f, rq), other, rq)
  {
    var rest := Dropped(f, rq);
    FirstIndex(rest, other);
    hide IndexOf, Dropped;
    var k := IndexOf(rest, other);
    var g := MovedBehind(f, rq, other);
    assert g == rest[..k + 1] + [rq] + rest[k + 1..];
    assert forall i :: 0 <= i <= k ==> g[i] == rest[i];
    IndexIs(g, other, k);
    DroppedIs(g, other, k);
    assert g[..k] + g[k + 1..] == rest[k := rq];
  }

  lemma DroppedIs(f: seq<Request>, x: Request, k: nat)
    requires x in f && IndexOf(f, x) == k
    ensures k < |f| && Dropped(f, x) == f[..k] + f[k + 1..]
  {
  }

  // ---------- every step ----------

  /** A request in the way leaves the FIFO. */
  function Cleared(l: Lane, s: nat): seq<Request> { if HasAlias(l.sort, s) then Dropped(l.fifo, Alias(l.sort, s)) else l.fifo }

  lemma FifoOfTree(l: Lane, rq: Request, aliasSize: nat)
    ensures AddToTree(l, rq, aliasSize).fifo == Cleared(l, rq.sector)
  {
    hide FindNext, IndexOf, Without, Dropped, Inserted;
  }

  lemma AddAges(x: Aged, rq: Request, aliasSize: nat)
    requires Inv(x) && Fits(x, Add(rq, aliasSize))
    ensures Inv(Next(x, Add(rq, aliasSize)))
  {
    AddKeeps(x.l, rq, aliasSize);
    FifoOfTree(x.l, rq, aliasSize);
    var f := Cleared(x.l, rq.sector);
    if HasAlias(x.l.sort, rq.sector) { DroppedAges(x.l.fifo, Alias(x.l.sort, rq.sector), x.came); }
    hide AddToTree, Cleared, Linked, Best, ChooseReq;
    Appended(f, rq, x.came, x.clock);
  }

  lemma Appended(f: seq<Request>, rq: Request, came: map<nat, nat>, clock: nat)
    requires ByAge(f, came) && (forall r :: r in f ==> r.id != rq.id && came[r.id] < clock)
    ensures var came' := came[rq.id := clock];
            ByAge(f + [rq], came') && forall r :: r in f + [rq] ==> came'[r.id] < clock + 1
  {
    var came' := came[rq.id := clock];
    forall i | 0 <= i < |f| ensures came'[f[i].id] == came[f[i].id] < clock { assert f[i] in f; }
  }

  lemma FrontAges(x: Aged, rq: Request, s: nat, aliasSize: nat)
    requires Inv(x) && Fits(x, Front(rq, s, aliasSize))
    ensures Inv(Next(x, Front(rq, s, aliasSize)))
  {
    FrontMergeKeeps(x.l, rq, s, aliasSize);
    InFifo(x.l, rq);
    var rq' := rq.(sector := s);
    var t := TakenOut(x.l, rq, s);
    FifoOfTree(t, rq', aliasSize);
    RenamedAges(x.l.fifo, rq, rq', x.came, x.came);
    if HasAlias(t.sort, s) { DroppedAges(t.fifo, Alias(t.sort, s), x.came); }
    hide AddToTree, Linked, Best, Renamed, Dropped, HasAlias, Alias, Without, IndexOf;
  }

  lemma InFifo(l: Lane, rq: Request)
    requires Linked(l) && rq in l.sort
    ensures rq in l.fifo
  {
    assert rq in multiset(l.sort) && rq in multiset(l.fifo);
  }

  lemma MergeAges(x: Aged, rq: Request, other: Request, sooner: bool)
    requires Inv(x) && Fits(x, Merge(rq, other, sooner))
    ensures Inv(Next(x, Merge(rq, other, sooner)))
  {
    MergeKeeps(x.l, rq, other, sooner);
    MergedFifo(x.l, rq, other, sooner);
    InFifo(x.l, rq);
    InFifo(x.l, other);
    hide Linked, Best, MergedRequests, Dropped, MovedBehind, ByAge;
    if sooner { SoonerAges(x.l.fifo, rq, other, x.came, x.clock); } else { LaterAges(x.l.fifo, other, x.came, x.clock); }
  }

  lemma MergedFifo(l: Lane, rq: Request, other: Request, sooner: bool)
    requires other in l.sort
    ensures MergedRequests(l, rq, other, sooner).fifo == Dropped(if sooner then MovedBehind(l.fifo, rq, other) else l.fifo, other)
  {
    hide Dropped, MovedBehind, FindNext, Without, IndexOf;
  }

  lemma LaterAges(f: seq<Request>, other: Request, came: map<nat, nat>, clock: nat)
    requires ByAge(f, came) && Past(f, came, clock)
    ensures ByAge(Dropped(f, other), came) && Past(Dropped(f, other), came, clock)
  {
    DroppedAges(f, other, came);
    hide Dropped;
  }

  lemma SoonerAges(f: seq<Request>, rq: Request, other: Request, came: map<nat, nat>, clock: nat)
    requires ByAge(f, came) && Past(f, came, clock) && rq in f && other in f && rq.id in came && other.id in came && rq.id != other.id
    ensures var came', g := came[rq.id := came[other.id]], Dropped(MovedBehind(f, rq, other), other);
            ByAge(g, came') && Past(g, came', clock)
  {
    hide Dropped, MovedBehind, Renamed, ByAge;
    var came', d := came[rq.id := came[other.id]], Dropped(f, rq);
    DroppedAges(f, rq, came);
    StillThere(f, rq, other);
    TakesThePlace(f, rq, other);
    forall r | r in d ensures r.id in came' && came'[r.id] == came[r.id] < clock { assert r in f; }
    assert other in f && came[other.id] < clock;
    RenamedAges(d, other, rq, came, came');
    var g := Renamed(d, other, rq);
    forall r | r in g ensures r.id in came' && came'[r.id] < clock { assert r == rq || r in d; }
  }

  lemma StillThere(f: seq<Request>, rq: Request, other: Request)
    requires rq in f && other in f && rq != other
    ensures other in Dropped(f, rq)
  {
    hide IndexOf;
    var i := IndexOf(f, rq);
    var j :| 0 <= j < |f| && f[j] == other;
    assert Dropped(f, rq)[if j < i then j else j - 1] == other;
  }

  lemma LeaveAges(x: Aged, rq: Request, op: Op)
    requires Inv(x) && Fits(x, op) && op.rq == rq && (op.Dispatch? || op.Remove?)
    ensures Inv(Next(x, op))
  {
    StepKeeps(x.l, op);
    DroppedAges(x.l.fifo, rq, x.came);
    hide Linked, Best, Dropped, FindNext, Without, IndexOf;
  }

  lemma NextKeeps(x: Aged, op: Op)
    requires Inv(x) && Fits(x, op)
    ensures Inv(Next(x, op))
  {
    match op {
      case Add(rq, size) => AddAges(x, rq, size);
      case Front(rq, s, size) => FrontAges(x, rq, s, size);
      case Merge(rq, other, sooner) => MergeAges(x, rq, other, sooner);
      case _ => LeaveAges(x, op.rq, op);
    }
  }

  predicate AgedLegal(x: Aged, ops: seq<Op>)
    decreases |ops|
  {
    ops == [] || (Fits(x, ops[0]) && AgedLegal(Next(x, ops[0]), ops[1..]))
  }

  function AgedRun(x: Aged, ops: seq<Op>): Aged
    requires AgedLegal(x, ops)
    decreases |ops|
  {
    if ops == [] then x else AgedRun(Next(x, ops[0]), ops[1..])
  }

  lemma {:induction false} AgedRunKeeps(x: Aged, ops: seq<Op>)
    requires Inv(x) && AgedLegal(x, ops)
    ensures Inv(AgedRun(x, ops))
    decreases |ops|
  {
    hide Inv, Fits, Next;
    if ops != [] {
      NextKeeps(x, ops[0]);
      AgedRunKeeps(Next(x, ops[0]), ops[1..]);
    }
  }

  /** In every run of insertions, dispatches, removals, front merges and merges: the first of the FIFO is the
      request that has waited longest. */
  lemma OldestIsFirst(last: nat, ops: seq<Op>, r: Request)
    requires AgedLegal(Aged(Empty(last), map[], 0), ops)
    ensures var x := AgedRun(Aged(Empty(last), map[], 0), ops);
            r in x.l.sort ==> x.l.fifo != [] && r.id in x.came && x.l.fifo[0].id in x.came && x.came[x.l.fifo[0].id] <= x.came[r.id]
  {
    AgedRunKeeps(Aged(Empty(last), map[], 0), ops);
    var x := AgedRun(Aged(Empty(last), map[], 0), ops);
    hide AgedRun, AgedLegal;
    if r in x.l.sort {
      InFifo(x.l, r);
      var i :| 0 <= i < |x.l.fifo| && x.l.fifo[i] == r;
      assert x.l.fifo[0] in x.l.fifo;
    }
  }
}
