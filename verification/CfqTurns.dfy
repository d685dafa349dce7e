/** Whose turn it is (block/cfq-iosched.c): which queue cfq_select_queue serves, in which order the
    service tree keeps the queues, and how long a queue with requests can be passed over. */
module CfqTurns {
  import opened Options
  import opened SortTree
  import opened Cfq

  // ---------- one selection ----------

  function Placed(tree: seq<nat>, k: nat, p: nat): seq<nat> { var i := Place(p, |tree|); tree[..i] + [k] + tree[i..] }

  /** The active queue, if any, is expired, and the first queue of the tree is next. */
  predicate Turn(s: State, c: Slice)
    requires s.active.Some? ==> s.active.value < |s.queues|
  {
    s.active == None || c.used || (s.queues[s.active.value].sort == [] && !c.wait)
  }

  /** The tree after cfq_slice_expired: the active queue is at its new place, if it is on the tree. */
  function Expired(s: State, place: nat): seq<nat>
    requires s.active.Some? ==> s.active.value < |s.queues|
  {
    if s.active.Some? && s.queues[s.active.value].onRr then Placed(Drop(s.service.tree, s.active.value), s.active.value, place)
    else s.service.tree
  }

  /** An unused slice keeps the active queue while it has requests, or is worth waiting for. Otherwise the
      first queue of the tree is selected, after the active one was put at its new place: so another
      queue, whenever another one comes before that place. */
  lemma SelectionRule(s: State, c: Slice)
    requires Inv(s)
    ensures var (s', k) := SelectQueue(s, c);
            && (!Turn(s, c) ==> s' == s && k == if s.queues[s.active.value].sort == [] then None else s.active)
            && (Turn(s, c) ==>
                  && s'.service.tree == Expired(s, c.place) && s'.queues == s.queues
                  && s'.active == k == if s'.service.tree == [] then None else Some(s'.service.tree[0]))
            && (c.used && s.active.Some? && c.place > 0 && Drop(s.service.tree, s.active.value) != [] ==>
                  k == Some(Drop(s.service.tree, s.active.value)[0]) && k != s.active)
  {
    hide QueueOk, Drop;
    if Turn(s, c) {
      if s.active.Some? { DropIs(s.service.tree, s.active.value); }
      var s1 := if s.active.Some? then Resort(s, s.active.value, c.place).(active := None) else s;
      if s.active.Some? {
        ResortKeeps(s, s.active.value, c.place);
        var a := s.active.value;
        if !s.queues[a].onRr { NotThere(s.service.tree, a); }
      }
      assert s1.service.tree == Expired(s, c.place);
      assert ServiceOk(s1.service);
    }
  }

  lemma {:induction false} NotThere(tree: seq<nat>, k: nat)
    requires k !in tree
    ensures Drop(tree, k) == tree
  {
    if tree != [] { NotThere(tree[1..], k); }
  }

  // ---------- how a step changes the tree ----------

  /** Nothing; a queue leaves; or a queue is put at a place, whether it was on the tree or not. */
  datatype Change = Same | Out(k: nat) | In(k: nat, place: nat)

  function Changed(tree: seq<nat>, ch: Change): seq<nat> {
    match ch
    case Same => tree
    case Out(k) => Drop(tree, k)
    case In(k, place) => Placed(Drop(tree, k), k, place)
  }

  function ChangeOf(s: State, op: Op): Change
    requires Enabled(s, op)
  {
    match op
    case Insert(k, rq, p) =>
      var sort := s.queues[k].sort;
      if sort == [] || (HasAlias(sort, rq.sector) && |sort| == 1) then In(k, p.place) else Same
    case Remove(k, rq, _) => if |s.queues[k].sort| == 1 then Out(k) else Same
    case FrontMerge(k, rq, sector, p) =>
      var rest := Without(s.queues[k].sort, IndexOf(s.queues[k].sort, rq));
      if HasAlias(rest, sector) && |rest| == 1 then In(k, p.place) else Same
    case Move(k, place) => if s.queues[k].sort != [] then In(k, place) else Same
    case Select(c) =>
      if Turn(s, c) && s.active.Some? && s.queues[s.active.value].sort != [] then In(s.active.value, c.place) else Same
    case NewQueueFor => Same
  }

  lemma RemoveChanges(s: State, k: nat, rq: Request, p: Policy)
    requires k < |s.queues| && s.service.busy > 0 && rq in s.queues[k].sort && s.queues[k].queued == CountOf(s.queues[k].sort)
    ensures var s' := RemoveRequest(s, k, rq, p);
            && |s'.queues| == |s.queues| && s'.active == s.active
            && s'.queues[k].sort == Without(s.queues[k].sort, IndexOf(s.queues[k].sort, rq))
            && var gone := s.queues[k].onRr && |s.queues[k].sort| == 1;
            && s'.service.tree == (if gone then Drop(s.service.tree, k) else s.service.tree)
            && s'.queues[k].onRr == (s.queues[k].onRr && !gone)
  {
    WithoutLength(s.queues[k].sort, IndexOf(s.queues[k].sort, rq));
    hide FindNext, Dropped, CountOf, Drop, OneLess, Without, IndexOf;
  }

  lemma AddChanges(s: State, k: nat, rq: Request, p: Policy)
    requires k < |s.queues| && s.queues[k].queued == CountOf(s.queues[k].sort)
    requires s.queues[k].sort != [] ==> s.queues[k].onRr && s.service.busy > 0
    ensures var s' := AddRqRb(s, k, rq, p);
            var sort := s.queues[k].sort;
            && s'.active == s.active && |s'.queues| == |s.queues|
            && s'.service.tree ==
                 (if !s.queues[k].onRr then Placed(s.service.tree, k, p.place)
                  else if HasAlias(sort, rq.sector) && |sort| == 1 then Placed(Drop(s.service.tree, k), k, p.place)
                  else s.service.tree)
  {
    var sort := s.queues[k].sort;
    if HasAlias(sort, rq.sector) {
      assert Alias(sort, rq.sector) in sort;
      RemoveChanges(s, k, Alias(sort, rq.sector), p);
    }
    hide RemoveRequest, HasAlias, Alias, CountOf, Drop, Inserted, Choose, OneMore;
  }

  /** Every step changes the tree in this way; only a selection changes the active queue. */
  lemma StepChanges(s: State, op: Op)
    requires Inv(s) && Enabled(s, op)
    ensures Step(s, op).service.tree == Changed(s.service.tree, ChangeOf(s, op))
    ensures !op.Select? ==> Step(s, op).active == s.active
    ensures op.Select? && !Turn(s, op.slice) ==> Step(s, op) == s
    ensures op.Select? && Turn(s, op.slice) ==>
              Step(s, op).active == if Step(s, op).service.tree == [] then None else Some(Step(s, op).service.tree[0])
  {
    hide AddRqRb, RemoveRequest, Drop, SelectQueue, HasAlias, Without, IndexOf, Placed;
    match op {
      case Insert(k, rq, p) => InsertChanges(s, k, rq, p);
      case Remove(k, rq, p) =>
        OnTree(s, k);
        RemoveChanges(s, k, rq, p);
      case FrontMerge(k, rq, sector, p) => MergeChanges(s, k, rq, sector, p);
      case Move(k, place) => OnTree(s, k); MoveChanges(s, k, place);
      case Select(c) =>
        SelectionRule(s, c);
        if s.active.Some? { OnTree(s, s.active.value); }
      case NewQueueFor =>
    }
  }

  /** A queue with requests is on the tree, and only such a queue. */
  lemma OnTree(s: State, k: nat)
    requires Inv(s) && k < |s.queues|
    ensures (k in s.service.tree <==> s.queues[k].sort != []) && (s.queues[k].onRr <==> s.queues[k].sort != [])
    ensures s.queues[k].sort != [] ==> s.service.busy > 0
    ensures s.queues[k].queued == CountOf(s.queues[k].sort)
  {
    QueueFacts(s.queues[k]);
  }

  lemma MoveChanges(s: State, k: nat, place: nat)
    requires k < |s.queues|
    ensures Resort(s, k, place).active == s.active
    ensures Resort(s, k, place).service.tree ==
              if s.queues[k].onRr then Placed(Drop(s.service.tree, k), k, place) else s.service.tree
  {
  }

  lemma InsertChanges(s: State, k: nat, rq: Request, p: Policy)
    requires Inv(s) && Enabled(s, Insert(k, rq, p))
    ensures var s' := InsertRequest(s, k, rq, p);
            s'.active == s.active && s'.service.tree == Changed(s.service.tree, ChangeOf(s, Insert(k, rq, p)))
  {
    OnTree(s, k);
    AddChanges(s, k, rq, p);
    if s.queues[k].sort == [] { NotThere(s.service.tree, k); }
    hide AddRqRb, HasAlias, Drop, CountOf, Placed;
  }

  lemma MergeChanges(s: State, k: nat, rq: Request, sector: nat, p: Policy)
    requires Inv(s) && Enabled(s, FrontMerge(k, rq, sector, p))
    ensures var s' := Reposition(s, k, rq, sector, p);
            s'.active == s.active && s'.service.tree == Changed(s.service.tree, ChangeOf(s, FrontMerge(k, rq, sector, p)))
  {
    OnTree(s, k);
    var q, rq' := s.queues[k], rq.(sector := sector);
    var r := TakenOut(q, rq, rq');
    assert r.sort == Without(q.sort, IndexOf(q.sort, rq)) && r.onRr == q.onRr;
    hide TakenOut, AddRqRb, HasAlias, Drop, CountOf, Without, IndexOf, Placed;
    AddChanges(Put(s, k, r), k, rq', p);
    OnRrStays(q, rq);
  }

  lemma OnRrStays(q: Cfqq, rq: Request)
    requires rq in q.sort
    ensures q.sort != []
  {
  }

  // ---------- how long a queue is passed over ----------

  ghost predicate Distinct(tree: seq<nat>) { forall i, j :: 0 <= i < j < |tree| ==> tree[i] != tree[j] }

  /** How many queues come before j. */
  function Ahead(tree: seq<nat>, j: nat): nat { if tree == [] || tree[0] == j then 0 else 1 + Ahead(tree[1..], j) }

  predicate Precedes(tree: seq<nat>, k: nat, j: nat) { tree != [] && tree[0] != j && (tree[0] == k || Precedes(tree[1..], k, j)) }

  function Bit(b: bool): nat { if b then 1 else 0 }

  lemma {:induction false} DropAhead(tree: seq<nat>, k: nat, j: nat)
    requires Distinct(tree) && k != j
    ensures Ahead(Drop(tree, k), j) + Bit(Precedes(tree, k, j)) == Ahead(tree, j)
    ensures forall x :: x != k ==> (Precedes(Drop(tree, k), x, j) <==> Precedes(tree, x, j))
    ensures !Precedes(Drop(tree, k), k, j)
  {
    if tree != [] {
      var rest := tree[1..];
      assert tree[0] !in rest by { assert forall i :: 0 <= i < |rest| ==> rest[i] == tree[i + 1]; }
      if tree[0] == k {
        NotBefore(rest, k, j);
      } else {
        DropAhead(rest, k, j);
        assert ([tree[0]] + Drop(rest, k))[1..] == Drop(rest, k);
      }
    }
  }

  lemma {:induction false} NotBefore(tree: seq<nat>, k: nat, j: nat)
    requires k !in tree
    ensures !Precedes(tree, k, j)
  {
    if tree != [] { NotBefore(tree[1..], k, j); }
  }

  lemma {:induction false} PlacedAhead(tree: seq<nat>, k: nat, p: nat, j: nat)
    requires k !in tree && j in tree
    ensures var t := Placed(tree, k, p);
            && Ahead(t, j) == Ahead(tree, j) + Bit(Precedes(t, k, j))
            && (forall x :: x != k ==> (Precedes(t, x, j) <==> Precedes(tree, x, j)))
            && (Precedes(t, k, j) <==> Place(p, |tree|) <= Ahead(tree, j))
    decreases |tree|
  {
    var t := Placed(tree, k, p);
    if Place(p, |tree|) == 0 {
      assert t[0] == k && t[1..] == tree;
    } else {
      assert t[0] == tree[0] && t[1..] == Placed(tree[1..], k, p - 1);
      if tree[0] == j { } else { PlacedAhead(tree[1..], k, p - 1, j); }
    }
  }

  /** The step puts another queue before j. */
  predicate Overtakes(tree: seq<nat>, ch: Change, j: nat) { ch.In? && ch.k != j && Precedes(Changed(tree, ch), ch.k, j) }

  /** The active queue is on the tree and comes before j. */
  predicate Serving(tree: seq<nat>, active: Option<nat>, j: nat) { active.Some? && Precedes(tree, active.value, j) }

  /** What is left before it must be j's turn. */
  function Wait(tree: seq<nat>, active: Option<nat>, j: nat): nat { 2 * Ahead(tree, j) + Bit(!Serving(tree, active, j)) }

  /** The places of the others: only the queue that is moved changes sides. */
  lemma ChangeAhead(tree: seq<nat>, ch: Change, j: nat)
    requires Distinct(tree) && j in tree && (ch != Same ==> ch.k != j)
    ensures j in Changed(tree, ch)
    ensures ch != Same ==>
              && Ahead(Changed(tree, ch), j) + Bit(Precedes(tree, ch.k, j)) == Ahead(tree, j) + Bit(Overtakes(tree, ch, j))
              && (ch.Out? ==> !Precedes(Changed(tree, ch), ch.k, j))
              && forall x :: x != ch.k ==> (Precedes(Changed(tree, ch), x, j) <==> Precedes(tree, x, j))
  {
    if ch != Same {
      DropIs(tree, ch.k);
      DropAhead(tree, ch.k, j);
      hide Ahead, Precedes, Drop;
      if ch.In? { PlacedAhead(Drop(tree, ch.k), ch.k, ch.place, j); }
    }
  }

  lemma QuietStep(tree: seq<nat>, active: Option<nat>, ch: Change, j: nat)
    requires Distinct(tree) && j in tree && (ch != Same ==> ch.k != j)
    ensures Wait(Changed(tree, ch), active, j) <= Wait(tree, active, j) + 2 * Bit(Overtakes(tree, ch, j))
  {
    ChangeAhead(tree, ch, j);
    hide Ahead, Precedes, Changed;
  }

  /** A turn that does not go to j: the queue whose turn it was is behind j, or it was behind it already. */
  lemma TurnStep(tree: seq<nat>, active: Option<nat>, ch: Change, j: nat)
    requires Distinct(tree) && j in tree && !ch.Out? && (ch.In? ==> active == Some(ch.k) != Some(j))
    requires ch == Same ==> !Serving(tree, active, j)
    requires Changed(tree, ch) != [] && Changed(tree, ch)[0] != j
    ensures Wait(Changed(tree, ch), Some(Changed(tree, ch)[0]), j) < Wait(tree, active, j) + 2 * Bit(Overtakes(tree, ch, j))
  {
    ChangeAhead(tree, ch, j);
    var t := Changed(tree, ch);
    assert Precedes(t, t[0], j);
    hide Ahead, Precedes, Changed;
  }

  /** Throughout the run j has requests, is not served, and no step moves it. */
  ghost predicate PassedOver(s: State, j: nat, ops: seq<Op>)
    requires Legal(s, ops)
    decreases |ops|
  {
    && j < |s.queues| && s.queues[j].sort != [] && s.active != Some(j)
    && (ops != [] ==>
          (ChangeOf(s, ops[0]) != Same ==> ChangeOf(s, ops[0]).k != j) && PassedOver(Step(s, ops[0]), j, ops[1..]))
  }

  predicate IsTurn(s: State, op: Op)
    requires Enabled(s, op)
  {
    op.Select? && Turn(s, op.slice)
  }

  function Turns(s: State, ops: seq<Op>): nat
    requires Legal(s, ops)
    decreases |ops|
  {
    if ops == [] then 0 else Bit(IsTurn(s, ops[0])) + Turns(Step(s, ops[0]), ops[1..])
  }

  function Overtakings(s: State, j: nat, ops: seq<Op>): nat
    requires Legal(s, ops)
    decreases |ops|
  {
    if ops == [] then 0
    else Bit(Overtakes(s.service.tree, ChangeOf(s, ops[0]), j)) + Overtakings(Step(s, ops[0]), j, ops[1..])
  }

  lemma StepWaits(s: State, j: nat, op: Op)
    requires Inv(s) && Enabled(s, op) && j < |s.queues| && s.queues[j].sort != [] && s.active != Some(j)
    requires ChangeOf(s, op) != Same ==> ChangeOf(s, op).k != j
    requires Step(s, op).active != Some(j)
    ensures var s' := Step(s, op);
            Wait(s'.service.tree, s'.active, j) + Bit(IsTurn(s, op))
              <= Wait(s.service.tree, s.active, j) + 2 * Bit(Overtakes(s.service.tree, ChangeOf(s, op), j))
  {
    StepChanges(s, op);
    OnTree(s, j);
    var tree, ch := s.service.tree, ChangeOf(s, op);
    assert Distinct(tree);
    if IsTurn(s, op) {
      ChangeAhead(tree, ch, j);
      if ch == Same && s.active.Some? {
        OnTree(s, s.active.value);
        NotBefore(tree, s.active.value, j);
      }
      hide Step, ChangeOf, Wait, Changed, Inv;
      TurnStep(tree, s.active, ch, j);
    } else {
      hide Step, ChangeOf, Wait, Inv;
      QuietStep(tree, s.active, ch, j);
    }
  }

  lemma {:induction false} TurnsUsed(s: State, j: nat, ops: seq<Op>)
    requires Inv(s) && Legal(s, ops) && PassedOver(s, j, ops)
    ensures Turns(s, ops) <= Wait(s.service.tree, s.active, j) + 2 * Overtakings(s, j, ops)
    decreases |ops|
  {
    hide Inv, Step, ChangeOf, Enabled, Wait, Overtakes, IsTurn;
    if ops != [] {
      StepKeeps(s, ops[0]);
      TurnsUsed(Step(s, ops[0]), j, ops[1..]);
      StepWaits(s, j, ops[0]);
    }
  }

  /** While a queue with requests waits in its place, whatever else is inserted, removed, merged and moved:
      it is passed over in at most twice as many turns as there are queues before it, plus one, and
      two more for each time another queue is put before it. */
  lemma TurnComes(s: State, j: nat, ops: seq<Op>)
    requires Inv(s) && Legal(s, ops) && PassedOver(s, j, ops)
    ensures Turns(s, ops) <= 2 * Ahead(s.service.tree, j) + 1 + 2 * Overtakings(s, j, ops)
  {
    TurnsUsed(s, j, ops);
  }
}
