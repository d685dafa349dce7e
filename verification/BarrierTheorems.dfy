/** The promises, over every run.                                                          */
module BarrierTheorems {
  import opened Options
  import opened BarrierModel
  import opened BarrierPhases
  import opened BarrierMoves
  import opened BarrierPhaseProof
  import opened BarrierOrder
  import opened BarrierOrderProof

  // ---------- what blk_do_ordered lets through ----------

  /** The head is the oldest there is, if it is an ordinary request. */
  predicate HeadIsOldest(q: Queue)
    requires q.list != []
  {
    q.list[0].kind.Fs? ==> q.list[0].epoch == Lo(q)
  }

  /** An ordinary request let through during a sequence is one the drain waits for. */
  lemma PassedHeadIsOldest(q: Queue)
    requires KeysOk(q, Keys(q)) && Epochs(q) && InOrder(q.list) && PendingOk(q) && DrainMode(q.mode)
    requires Active(q) && q.list != [] && DoOrdered(q).1 == Pass
    ensures HeadIsOldest(q)
  {
    PhaseIsOpen(q);
    if q.list[0].kind.Fs? { PassMeans(q); }
    hide EpochOk, Increasing, KeysOk, Keys, InOrder, PendingOk, DoOrdered;
    if q.list[0].kind.Fs? { ColourTells(q, 0); }
  }

  lemma PhaseIsOpen(q: Queue)
    requires KeysOk(q, Keys(q)) && Active(q)
    ensures CurSeq(q.ordseq) != Done
  {
  }

  lemma PassMeans(q: Queue)
    requires Active(q) && q.list != [] && DrainMode(q.mode) && DoOrdered(q).1 == Pass && q.list[0].kind.Fs?
    ensures Rank(ReqSeq(q.orig, q.list[0])) <= Rank(CurSeq(q.ordseq))
  {
    hide StartOrdered, Refuse;
  }

  /** The WARN_ON in blk_do_ordered is never reached: nothing comes to the head of the list
      after its turn. */
  lemma NothingComesLate(q: Queue)
    requires KeysOk(q, Keys(q)) && Epochs(q) && InOrder(q.list) && PendingOk(q) && Drained(q)
    requires Active(q) && q.list != [] && !q.list[0].kind.Special?
    ensures Rank(CurSeq(q.ordseq)) <= Rank(ReqSeq(q.orig, q.list[0]))
  {
    hide EpochOk, Increasing, Keys;
    var r := q.list[0];
    KeyIsListed(q, r);
    if r.kind.Fs? { ColourTells(q, 0); }
  }

  lemma WarnOrder(q: Queue)
    requires OrderInv(q) && KeysOk(q, Keys(q)) && Active(q) && q.list != [] && DrainMode(q.mode)
    ensures DoOrdered(q).0 == q
  {
    if !q.list[0].kind.Special? { NothingComesLate(q); }
  }

  lemma DoOrderedOrder(q: Queue)
    requires PhaseInv(q) && OrderInv(q) && DrainMode(q.mode) && q.list != []
    ensures OrderInv(DoOrdered(q).0)
    ensures DoOrdered(q).1 == Pass ==> DoOrdered(q).0.list != [] && HeadIsOldest(DoOrdered(q).0)
  {
    var r := q.list[0];
    if Active(q) {
      WarnOrder(q);
      if DoOrdered(q).1 == Pass { PassedHeadIsOldest(q); }
    } else if IsFs(r) && r.hard {
      NoProxies(q);
      StartOrder(q);
      RunEpochs(q.mode, r);
      assert StartOrdered(q).list[0] in ProxyRun(q.mode, r);
    } else if r.kind.Fs? {
      IdleHeadIsOldest(q);
    }
  }

  // ---------- what may be issued ----------

  lemma ProxyIssueIsSafe(q: Queue)
    requires Shapes(q) && KeysOk(q, Keys(q)) && Epochs(q) && PendingOk(q) && Drained(q) && DrainMode(q.mode)
    requires q.list != [] && HeadIsDue(q) && IsProxy(q.list[0].kind)
    ensures IssueIsSafe(q.mode, q.h, q.list[0].kind, q.list[0].id)
  {
    var r := q.list[0];
    KeyIsListed(q, r);
    assert Active(q) && Cur(q) == Some(r.id);
    assert Drain in q.ordseq;
    DrainedMeansEnded(q);
    if r.kind.BarRq? {
      assert Pre in q.ordseq;
    } else if r.kind.PostFlushRq? {
      assert Bar in q.ordseq;
    }
  }

  lemma HeadIssueIsSafe(q: Queue)
    requires PhaseInv(q) && OrderInv(q) && DrainMode(q.mode)
    requires q.list != [] && HeadIsDue(q) && HeadIsOldest(q)
    ensures IssueIsSafe(q.mode, q.h, q.list[0].kind, q.list[0].id)
  {
    if IsProxy(q.list[0].kind) {
      ProxyIssueIsSafe(q);
    } else if q.list[0].kind.Fs? {
      HeadBarriersEnded(q);
    }
  }

  lemma IssueOrder(q: Queue, r: Request)
    requires OrderInv(q) && IssueIsSafe(q.mode, q.h, r.kind, r.id)
    ensures OrderInv(Log(q, IssueOf(r)))
  {
    var q1 := Log(q, IssueOf(r));
    assert Barriers(q1.h) == Barriers(q.h);
    assert Epochs(q1) by {
      forall x | Held(q1, x) ensures Held(q, x) { }
      forall x | Live(q1, x) ensures Live(q, x) { }
    }
    assert PendingOk(q1);
  }

  lemma MarkedMembers(q: Queue)
    requires q.list != []
    ensures var r, q1 := q.list[0], MarkStarted(q);
            && |q1.list| == |q.list| && q1.list[0] == r.(started := true)
            && (forall i :: 1 <= i < |q.list| ==> q1.list[i] == q.list[i])
            && (forall x :: x in q1.list ==> x in q.list || x == r.(started := true))
            && (forall x :: x in q.list && x != r ==> x in q1.list)
  {
    assert q.list == [q.list[0]] + q.list[1..];
  }

  lemma MarkEpochs(q: Queue, q1: Queue)
    requires Epochs(q) && q.list != [] && HeadIsOldest(q)
    requires q1 == q.(list := q1.list, endSector := q1.endSector, boundary := q1.boundary)
    requires forall x :: x in q1.list ==> x in q.list || x == q.list[0].(started := true)
    ensures Epochs(q1)
  {
    var r, r1 := q.list[0], q.list[0].(started := true);
    assert Held(q, r);
    forall x | Held(q1, x) && x.kind.Fs? ensures EpochOk(Barriers(q1.h), x) { assert Held(q, x) || x == r1; }
    forall x | Live(q1, x) && x.kind.Fs? ensures x.epoch == Lo(q1) { assert Live(q, x) || x == r1; }
  }

  lemma MarkOrder(q: Queue)
    requires OrderInv(q) && q.list != [] && HeadIsOldest(q) && !IsQueuedBarrier(q.list[0])
    ensures OrderInv(MarkStarted(q))
  {
    hide Epochs;
    MarkedMembers(q);
    var q1 := MarkStarted(q);
    MarkEpochs(q, q1);
    assert InOrder(q1.list) by {
      forall i | 0 <= i < |q.list| ensures Pos(q1.list[i]) == Pos(q.list[i]) && q1.list[i].kind == q.list[i].kind { }
    }
    hide InOrder, Pos;
    assert Drained(q1) && PendingOk(q1);
  }

  lemma EndedHeadOrder(q: Queue, err: int)
    requires PhaseInv(q) && OrderInv(q) && q.list != [] && HeadIsDue(q)
    ensures OrderInv(EndRequest(q, q.list[0], err))
  {
    hide PhaseInv, OrderInv;
    EndOrder(q, q.list[0], err);
  }

  lemma SameHead(q: Queue, q1: Queue)
    requires q.list != [] && HeadIsDue(q) && q1.list == q.list && q1.mode == q.mode && q1.ordseq == q.ordseq
    ensures HeadIsDue(q1) && !IsQueuedBarrier(q.list[0])
  {
  }

  lemma SameAge(q: Queue, q1: Queue)
    requires q.list != [] && HeadIsOldest(q) && q1.list == q.list && q1.ordseq == q.ordseq && q1.base == q.base
    ensures HeadIsOldest(q1)
  {
  }

  lemma MarkedIsDue(q: Queue)
    requires q.list != [] && HeadIsDue(q)
    ensures HeadIsDue(MarkStarted(q))
  {
  }

  lemma OfferOrder(q: Queue, prep: Prep)
    requires PhaseInv(q) && OrderInv(q) && DrainMode(q.mode) && q.list != [] && HeadIsDue(q) && HeadIsOldest(q)
    ensures OrderInv(Offer(q, prep))
  {
    hide PhaseInv, OrderInv, HeadIsDue, HeadIsOldest, EndRequest, IssueIsSafe;
    var r := q.list[0];
    var q1 := Log(q, IssueOf(r));
    IssueKeeps(q, r);
    HeadIssueIsSafe(q);
    IssueOrder(q, r);
    SameHead(q, q1);
    SameAge(q, q1);
    if IsEmptyBarrier(r) {
      EndedHeadOrder(q1, 0);
    } else {
      MarkOrder(q1);
      if prep.Kill? {
        MarkKeeps(q1);
        MarkedIsDue(q1);
        EndedHeadOrder(MarkStarted(q1), -5);
      }
    }
  }

  lemma ColoursDiffer(q: Queue)
    requires PhaseInv(q) && (DrainMode(q.mode) ==> OrderInv(q))
    ensures NextBarrierDiffers(q)
  {
    if Active(q) && DrainMode(q.mode) && q.list != [] && IsQueuedBarrier(q.list[0]) {
      NextBarrierHasOtherColour(q);
    }
  }

  lemma PollOrder(q: Queue, prep: Prep)
    requires PhaseInv(q) && OrderInv(q) && DrainMode(q.mode) && q.list != []
    ensures OrderInv(Poll(q, prep))
  {
    DoOrderedOrder(q);
    DoOrderedKeeps(q);
    if DoOrdered(q).1 == Pass {
      ColoursDiffer(q);
      PassIsDue(q);
      OfferOrder(DoOrdered(q).0, prep);
    }
  }

  lemma LiveEndOrder(q: Queue, r: Request, err: int)
    requires PhaseInv(q) && OrderInv(q) && DrainMode(q.mode) && Live(q, r)
    ensures OrderInv(EndRequest(q, r, err))
  {
    assert DriverShape(r) || ListShape(r);
    if IsProxy(r.kind) { KeyIsListed(q, r); }
    EndOrder(q, r, err);
  }

  // ---------- every run ----------

  /** Every step keeps the whole invariant, in every mode. */
  lemma StepKeeps(q: Queue, op: Op)
    requires Inv(q) && Enabled(q, op)
    ensures Inv(Step(q, op)) && Step(q, op).mode == q.mode
  {
    ColoursDiffer(q);
    StepKeepsPhases(q, op);
    if DrainMode(q.mode) {
      match op
      case OpAdmit(s) => AdmitOrder(q, s);
      case OpDispatch(r, atTail) => DispatchOrder(q, r, atTail);
      case OpPoll(prep) => PollOrder(q, prep);
      case OpDequeue(r) => DequeueOrder(q, r);
      case OpRequeue(r) => RequeueOrder(q, r);
      case OpEnd(r, err) => LiveEndOrder(q, r, err);
      case OpPartial(_, err) => PartialOrder(q, err);
    }
  }

  lemma PartialOrder(q: Queue, err: int)
    requires OrderInv(q)
    ensures OrderInv(PartialError(q, err))
  {
    hide EpochOk, Increasing, InOrder, IssueIsSafe;
    var q1 := PartialError(q, err);
    assert Barriers(q1.h) == Barriers(q.h) && AdmittedFs(q1.h) == AdmittedFs(q.h);
    assert Epochs(q1) && PendingOk(q1);
  }

  lemma {:induction false} RunKeeps(q: Queue, ops: seq<Op>)
    requires Inv(q) && Legal(q, ops)
    ensures Inv(Run(q, ops)) && Run(q, ops).mode == q.mode
    decreases |ops|
  {
    if ops != [] {
      StepKeeps(q, ops[0]);
      RunKeeps(Step(q, ops[0]), ops[1..]);
    }
  }

  lemma InitialInv(m: Mode)
    ensures Inv(Initial(m))
  {
    InitialPhaseInv(m);
  }

  /** In every mode and every run, no BUG_ON and no read of an absent entry is reached,
      nothing ends twice, and a barrier ends once, after all its phases, with the first
      error one of them reported.  Every sequence begun is over, barrier and phases, but for
      the one in progress, which has a phase open; and every file-system request admitted is
      held somewhere, has ended, or is the barrier in progress. */
  lemma EverySequenceCloses(m: Mode, ops: seq<Op>)
    requires Legal(Initial(m), ops)
    ensures var q := Run(Initial(m), ops);
            && !q.bug
            && EndsAreDue(m, q.h)
            && (Active(q) ==> CurSeq(q.ordseq) != Done)
            && (forall id :: id in Sequences(q.h) && Cur(q) != Some(id) ==> SequenceIsOver(q.h, id))
            && (forall id :: id in AdmittedFs(q.h) ==>
                  (Fs, id) in Keys(q) || (Fs, id) in EndedKeys(q.h) || Cur(q) == Some(id))
            && (Active(q) <==> Cur(q).Some?)
  {
    InitialInv(m);
    RunKeeps(Initial(m), ops);
  }

  /** In drain mode and every run: a barrier reaches the driver only when every request
      admitted before it and its pre-flush have ended, its post-flush only after it, and no
      request admitted after a barrier reaches the driver before that barrier has ended.
      No WARN_ON is reached. */
  lemma NothingPassesABarrier(m: Mode, ops: seq<Op>)
    requires DrainMode(m) && Legal(Initial(m), ops)
    ensures var q := Run(Initial(m), ops); IssuesAreSafe(m, q.h) && !q.warned
  {
    InitialInv(m);
    RunKeeps(Initial(m), ops);
  }

  lemma AdjacentColours(bars: seq<nat>, r: Request, o: Request)
    requires EpochOk(bars, r) && EpochOk(bars, o) && o.epoch <= r.epoch <= o.epoch + 1
    ensures (r.color == o.color <==> r.epoch == o.epoch) && (o.hard ==> o.epoch < |bars|)
  {
  }

  lemma ColourMeansOlder(q: Queue, i: nat)
    requires KeysOk(q, Keys(q)) && Epochs(q) && InOrder(q.list) && PendingOk(q)
    requires Active(q) && i < |q.list| && q.list[i].kind.Fs? && forall j :: 0 <= j < i ==> !IsQueuedBarrier(q.list[j])
    ensures q.orig.Some? && (q.list[i].color == q.orig.value.color <==> q.list[i].id < q.orig.value.id)
  {
    var r := q.list[i];
    assert Held(q, r) && KeyOf(r) in ListKeys(q.list);
    assert r.id != q.orig.value.id;
    hide KeysOk, Keys, Increasing, EpochOk, InOrder, PendingOk;
    if r.epoch <= q.base { AdjacentColours(Barriers(q.h), r, q.orig.value); }
    if r.epoch > q.base {
      var j := NextBarrierIsBefore(q, i);
    } else if r.epoch == q.base - 1 {
      OlderEpochOlderId(Barriers(q.h), r, q.orig.value);
    } else {
      NewerEpochNewerId(Barriers(q.h), r, q.orig.value);
    }
  }

  /** The colour bit in every reachable drain-mode state: up to the next barrier on the
      list, a request carries the colour of the barrier in progress exactly when it was
      admitted before it. */
  lemma OneBitIsEnough(m: Mode, ops: seq<Op>, q: Queue, i: nat)
    requires DrainMode(m) && Legal(Initial(m), ops) && q == Run(Initial(m), ops)
    requires Active(q) && i < |q.list| && q.list[i].kind.Fs? && forall j :: 0 <= j < i ==> !IsQueuedBarrier(q.list[j])
    ensures q.orig.Some? && (q.list[i].color == q.orig.value.color <==> q.list[i].id < q.orig.value.id)
  {
    InitialInv(m);
    RunKeeps(Initial(m), ops);
    ColourMeansOlder(q, i);
  }
}
