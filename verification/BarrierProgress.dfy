/** Drain mode: a sequence is never stuck.  When the driver has nothing, the head of the
    list is let through.                                                                   */
module BarrierProgress {
  import opened BarrierModel
  import opened BarrierPhases
  import opened BarrierMoves
  import opened BarrierPhaseProof
  import opened BarrierOrder
  import opened BarrierOrderProof
  import opened BarrierTheorems

  /** The head of the list is one that the drain phase lets through. */
  predicate HeadDrains(q: Queue) { q.list != [] && Rank(ReqSeq(q.orig, q.list[0])) <= Rank(Drain) }

  /** With nothing left in the driver the drain phase is open only for something on the list. */
  predicate DrainHasWork(q: Queue) {
    Active(q) && CurSeq(q.ordseq) == Drain && q.driver == {} ==> HeadDrains(q)
  }

  // ---------- every step ----------

  lemma AdmitHasWork(q: Queue, s: Spec)
    requires DrainHasWork(q) && Enabled(q, OpAdmit(s))
    ensures DrainHasWork(Admit(q, s))
  {
  }

  /** A dispatched request does not become the head: it stops behind a barrier proxy. */
  lemma DispatchHasWork(q: Queue, r: Request, atTail: bool)
    requires PhaseInv(q) && OrderInv(q) && DrainMode(q.mode) && DrainHasWork(q) && r in q.elv
    ensures DrainHasWork(Step(q, OpDispatch(r, atTail)))
  {
    hide Unique, Shapes, Gated, KeysOk, Keys, Epochs, InOrder, PendingOk, Drained, IssuesAreSafe, EndsAreDue;
    var q1 := Step(q, OpDispatch(r, atTail));
    if Active(q) && CurSeq(q.ordseq) == Drain && q.driver == {} {
      DrainingListIsNotEmpty(q);
      var b :| b in q.list && b.kind.BarRq?;
      var i :| 0 <= i < |q.list| && q.list[i] == b;
      assert b.hard by { ProxyIsHard(q, b); }
      assert q1.list[0] == q.list[0];
    }
  }

  lemma ProxyIsHard(q: Queue, b: Request)
    requires Shapes(q) && b in q.list && IsProxy(b.kind)
    ensures b.hard
  {
    assert ListShape(b);
  }

  /** Taken back while the drain phase is open, a request becomes the head. */
  lemma RequeueHasWork(q: Queue, r: Request)
    requires PhaseInv(q) && OrderInv(q) && DrainMode(q.mode) && r in q.driver
    ensures DrainHasWork(Requeue(q, r))
  {
    hide Unique, KeysOk, Keys, InOrder, PendingOk, IssuesAreSafe, EndsAreDue, Increasing;
    var r1 := Requeued(r);
    if Active(q) && CurSeq(q.ordseq) == Drain {
      assert Live(q, r) && Held(q, r);
      assert !IsProxy(r.kind);
      assert ReqSeq(q.orig, r1) == Drain;
      assert RequeuePos(q.list, q.orig, Drain) == 0;
    }
  }

  /** A completion closes the drain phase unless the head still has to pass. */
  lemma CheckHasWork(d: Queue)
    requires Counted(d) && (Active(d) && CurSeq(d.ordseq) == Drain ==> d.list != [])
    ensures DrainHasWork(DrainCheck(d))
  {
    if d.driver == {} { assert FsOf(d.driver) == {}; }
  }

  lemma EndHasWork(q: Queue, r: Request, err: int)
    requires PhaseInv(q) && (r in q.list || r in q.driver) && !IsQueuedBarrier(r)
    requires IsProxy(r.kind) && q.mode.Ordered? && !q.mode.tag ==> Reached(q.ordseq, PhaseOf(r.kind))
    ensures DrainHasWork(EndRequest(q, r, err))
  {
    if IsProxy(r.kind) {
      ProxyEndEquation(q, r, err);
    } else {
      PlacesAreApart(q, r);
      EndRequestDrops(q, r, err);
      DroppedOrdinary(q, r, err);
      var d := Dropped(q, r, err);
      if Active(d) && CurSeq(d.ordseq) == Drain { DrainingListIsNotEmpty(d); }
      CheckHasWork(d);
    }
  }

  lemma OfferHasWork(q: Queue, prep: Prep)
    requires PhaseInv(q) && DrainHasWork(q) && q.list != [] && HeadIsDue(q)
    ensures DrainHasWork(Offer(q, prep))
  {
    hide PhaseInv, EndRequest, HeadIsDue;
    var r := q.list[0];
    var q1 := Log(q, IssueOf(r));
    IssueKeeps(q, r);
    SameHead(q, q1);
    if IsEmptyBarrier(r) {
      OfferedEnds(q1, 0);
    } else if prep.Kill? {
      MarkKeeps(q1);
      MarkedIsDue(q1);
      OfferedEnds(MarkStarted(q1), -5);
    }
  }

  lemma OfferedEnds(q: Queue, err: int)
    requires PhaseInv(q) && q.list != [] && HeadIsDue(q)
    ensures DrainHasWork(EndRequest(q, q.list[0], err))
  {
    EndHasWork(q, q.list[0], err);
  }

  /** Starting a sequence leaves the drain phase open only if the driver has something. */
  lemma StartHasWork(q: Queue)
    requires Counted(q) && q.mode.Ordered? && q.list != []
    ensures DrainHasWork(StartOrdered(q))
  {
    if q.driver == {} { assert FsOf(q.driver) == {}; }
  }

  lemma PollHasWork(q: Queue, prep: Prep)
    requires PhaseInv(q) && OrderInv(q) && DrainMode(q.mode) && DrainHasWork(q) && q.list != []
    ensures DrainHasWork(Poll(q, prep))
  {
    if !Active(q) && IsQueuedBarrier(q.list[0]) { StartHasWork(q); }
    if !Active(q) { NoProxies(q); }
    ColoursDiffer(q);
    DoOrderedKeeps(q);
    assert DrainHasWork(DoOrdered(q).0);
    if DoOrdered(q).1 == Pass {
      PassIsDue(q);
      hide PhaseInv, OrderInv, DoOrdered, DrainHasWork, HeadIsDue;
      OfferHasWork(DoOrdered(q).0, prep);
    }
  }

  lemma StepHasWork(q: Queue, op: Op)
    requires Inv(q) && DrainMode(q.mode) && DrainHasWork(q) && Enabled(q, op)
    ensures DrainHasWork(Step(q, op))
  {
    match op
    case OpAdmit(s) => AdmitHasWork(q, s);
    case OpDispatch(r, atTail) => DispatchHasWork(q, r, atTail);
    case OpPoll(prep) => PollHasWork(q, prep);
    case OpDequeue(r) =>
    case OpRequeue(r) => RequeueHasWork(q, r);
    case OpEnd(r, err) =>
      assert Live(q, r) && (DriverShape(r) || ListShape(r));
      if IsProxy(r.kind) { KeyIsListed(q, r); }
      EndHasWork(q, r, err);
    case OpPartial(_, err) =>
  }

  lemma {:induction false} RunHasWork(q: Queue, ops: seq<Op>)
    requires Inv(q) && DrainMode(q.mode) && DrainHasWork(q) && Legal(q, ops)
    ensures DrainHasWork(Run(q, ops))
    decreases |ops|
  {
    if ops != [] {
      StepKeeps(q, ops[0]);
      StepHasWork(q, ops[0]);
      RunHasWork(Step(q, ops[0]), ops[1..]);
    }
  }

  // ---------- the head passes ----------

  /** The proxy of the first open phase is on the list if the driver does not have it. */
  lemma OpenPhaseIsListed(q: Queue) returns (j: nat)
    requires Shapes(q) && KeysOk(q, Keys(q)) && Active(q) && q.driver == {} && CurSeq(q.ordseq) != Drain
    ensures j < |q.list| && IsProxy(q.list[j].kind) && PhaseOf(q.list[j].kind) == CurSeq(q.ordseq)
  {
    var p := CurSeq(q.ordseq);
    var k := if p.Pre? then PreFlushRq else if p.Bar? then BarRq else PostFlushRq;
    assert (k, q.orig.value.id) in Keys(q);
    var r := HolderOf(q, (k, q.orig.value.id));
    assert r in q.elv ==> ElvShape(r);
    j :| 0 <= j < |q.list| && q.list[j] == r;
  }

  lemma EarlierPhase(r: Request, x: Request)
    requires IsProxy(r.kind) && !x.kind.Special? && Pos(x) <= Pos(r)
    requires if x.kind.Fs? then x.epoch > r.epoch else x.epoch == r.epoch
    ensures IsProxy(x.kind) && Rank(PhaseOf(x.kind)) <= Rank(PhaseOf(r.kind))
  {
  }

  lemma StartedIsSet(q: Queue)
    requires KeysOk(q, Keys(q)) && Active(q)
    ensures Started in q.ordseq
  {
  }

  lemma HeadPasses(q: Queue)
    requires PhaseInv(q) && OrderInv(q) && DrainMode(q.mode) && DrainHasWork(q) && Active(q) && q.driver == {}
    ensures q.list != [] && Rank(ReqSeq(q.orig, q.list[0])) <= Rank(CurSeq(q.ordseq))
  {
    hide Unique, Gated, KeysOk, Keys, EpochOk, Increasing, PendingOk, IssuesAreSafe, EndsAreDue, Shapes, Counted;
    StartedIsSet(q);
    if CurSeq(q.ordseq) != Drain {
      var j := OpenPhaseIsListed(q);
      var r, x := q.list[j], q.list[0];
      if !x.kind.Special? {
        assert Pos(x) <= Pos(r);
        assert x.kind.Fs? ==> x.epoch >= q.base;
        hide InOrder, Pos;
        EarlierPhase(r, x);
      }
    }
  }

  lemma EmptyDriverPasses(q: Queue)
    requires PhaseInv(q) && OrderInv(q) && DrainMode(q.mode) && DrainHasWork(q)
    ensures Active(q) && q.driver == {} ==> q.list != []
    ensures q.list != [] && q.driver == {} ==> DoOrdered(q).1 == Pass
  {
    if q.driver == {} {
      assert q.inFlight == 0 by { assert FsOf(q.driver) == {}; }
      if Active(q) { HeadPasses(q); }
      hide Unique, Gated, KeysOk, Keys, Epochs, InOrder, PendingOk, IssuesAreSafe, EndsAreDue, Shapes, Counted, StartOrdered, Refuse, Drained;
    }
  }

  /** In every drain-mode run: while a sequence is in progress the driver or the list has
      something, and when the driver has nothing the next poll issues the head of the list. */
  lemma SequenceIsNeverStuck(m: Mode, ops: seq<Op>)
    requires DrainMode(m) && Legal(Initial(m), ops)
    ensures var q := Run(Initial(m), ops);
            && (Active(q) && q.driver == {} ==> q.list != [])
            && (q.list != [] && q.driver == {} ==>
                  DoOrdered(q).1 == Pass && forall prep :: Issues(Poll(q, prep).h) == Issues(q.h) + 1)
  {
    InitialInv(m);
    RunKeeps(Initial(m), ops);
    RunHasWork(Initial(m), ops);
    hide Run, PhaseInv, OrderInv, DoOrdered;
    var q := Run(Initial(m), ops);
    EmptyDriverPasses(q);
    if q.list != [] && q.driver == {} { forall prep { PassIssues(q, prep); } }
  }
}
