/** Every step of every drain-mode run keeps the ordering invariant.                       */
module BarrierOrderProof {
  import opened Options
  import opened BarrierModel
  import opened BarrierPhases
  import opened BarrierMoves
  import opened BarrierPhaseProof
  import opened BarrierOrder

  // ---------- order of the list ----------

  lemma InOrderInsert(s: seq<Request>, p: nat, r: Request)
    requires InOrder(s) && p <= |s|
    requires !r.kind.Special? ==>
               && (forall j :: 0 <= j < p && !s[j].kind.Special? ==> Pos(s[j]) <= Pos(r))
               && (forall j :: p <= j < |s| && !s[j].kind.Special? ==> Pos(r) <= Pos(s[j]))
    ensures InOrder(InsertAt(s, p, r))
  {
  }

  lemma InOrderRemove(s: seq<Request>, r: Request)
    requires InOrder(s) && r in s
    ensures InOrder(Remove(s, r))
  {
    var i := RemoveSplits(s, r);
    var t := s[..i] + s[i + 1..];
    assert forall j :: 0 <= j < i ==> t[j] == s[j];
    assert forall j :: i <= j < |t| ==> t[j] == s[j + 1];
  }

  /** Nothing on the list belongs after a request admitted now. */
  lemma ListIsBounded(q: Queue, r: Request)
    requires Epochs(q) && PendingOk(q) && r in q.list && !r.kind.Special?
    ensures Pos(r) <= 10 * |Barriers(q.h)|
    ensures IsProxy(r.kind) ==> r.epoch < |Barriers(q.h)|
  {
  }

  // ---------- admission ----------

  lemma AdmitEpochOk(bars: seq<nat>, r: Request, id: nat)
    requires EpochOk(bars, r) && r.id < id
    ensures EpochOk(bars + [id], r)
  {
  }

  lemma NewEpochOk(q: Queue, s: Spec)
    requires Epochs(q) && forall b :: b in Barriers(q.h) ==> b < q.nextId
    ensures EpochOk(Barriers(Admit(q, s).h), NewRequest(q, s))
    ensures Increasing(Barriers(Admit(q, s).h)) && Admit(q, s).ordcolor == Odd(|Barriers(Admit(q, s).h)|)
  {
    var bars := Barriers(q.h);
    assert Barriers(Admit(q, s).h) == bars + (if s.hard then [q.nextId] else []);
    forall i | 0 <= i < |bars| ensures bars[i] < q.nextId { assert bars[i] in bars; }
  }

  lemma AdmitHeldEpochs(q: Queue, s: Spec, r: Request)
    requires KeysOk(q, Keys(q)) && Epochs(q) && Held(Admit(q, s), r) && r.kind.Fs?
    requires forall x :: x in Admit(q, s).list ==> x in q.list || x == NewRequest(q, s)
    ensures EpochOk(Barriers(Admit(q, s).h), r)
  {
    var q1 := Admit(q, s);
    assert Barriers(q1.h) == Barriers(q.h) + (if s.hard then [q.nextId] else []);
    if Held(q, r) {
      HeldIsOld(q, r);
      AdmitEpochOk(Barriers(q.h), r, q.nextId);
    } else {
      NewEpochOk(q, s);
    }
  }

  /** The epochs when one request, which the driver has not seen, comes in. */
  lemma EpochsExtend(q: Queue, q1: Queue, r: Request)
    requires Epochs(q) && q1.ordseq == q.ordseq && q1.orig == q.orig && q1.base == q.base <= r.epoch && q1.driver == q.driver
    requires !r.started && !IsProxy(r.kind) && r.epoch == |Barriers(q.h)|
    requires forall x :: x in q1.list ==> x in q.list || x == r
    requires forall x :: x in q1.elv ==> (x in q.elv || x == r) && |Barriers(q1.h)| == |Barriers(q.h)|
    requires Increasing(Barriers(q1.h)) && q1.ordcolor == Odd(|Barriers(q1.h)|)
    requires forall x :: Held(q1, x) && x.kind.Fs? ==> EpochOk(Barriers(q1.h), x)
    requires Active(q) && q.orig.Some? ==> EpochOk(Barriers(q1.h), q.orig.value)
    ensures Epochs(q1)
  {
    hide EpochOk, Increasing, Odd;
    forall x | Live(q1, x) ensures Live(q, x) { }
  }

  lemma AdmitEpochs(q: Queue, s: Spec)
    requires Unique(q) && KeysOk(q, Keys(q)) && Epochs(q) && PendingOk(q) && Enabled(q, OpAdmit(s))
    requires forall x :: x in Admit(q, s).list ==> x in q.list || x == NewRequest(q, s)
    ensures Epochs(Admit(q, s))
  {
    hide Epochs, EpochOk, Increasing, KeysOk, Unique, Keys, Odd, Held;
    AdmitNumbers(q);
    NewEpochOk(q, s);
    AdmittedEpochs(q, s);
    AdmitPlaces(q, s);
    EpochsExtend(q, Admit(q, s), NewRequest(q, s));
  }

  lemma AdmittedEpochs(q: Queue, s: Spec)
    requires KeysOk(q, Keys(q)) && Epochs(q)
    requires forall x :: x in Admit(q, s).list ==> x in q.list || x == NewRequest(q, s)
    ensures forall r :: Held(Admit(q, s), r) && r.kind.Fs? ==> EpochOk(Barriers(Admit(q, s).h), r)
    ensures Active(q) && q.orig.Some? ==> EpochOk(Barriers(Admit(q, s).h), q.orig.value)
  {
    hide EpochOk, Keys, KeysOk, Increasing, Held, Admit;
    AdmitFields(q, s);
    AdmitNumbers(q);
    var q1, bars := Admit(q, s), Barriers(q.h);
    forall r | Held(q1, r) && r.kind.Fs? ensures EpochOk(Barriers(q1.h), r) { AdmitHeldEpochs(q, s, r); }
    if Active(q) {
      AdmitEpochOk(bars, q.orig.value, q.nextId);
      assert Barriers(q1.h) == if s.hard then bars + [q.nextId] else bars;
    }
  }

  lemma AdmitPlaces(q: Queue, s: Spec)
    requires PendingOk(q) && Enabled(q, OpAdmit(s))
    ensures var q1, r := Admit(q, s), NewRequest(q, s);
            && q1.ordseq == q.ordseq && q1.orig == q.orig && q1.base == q.base <= r.epoch && q1.driver == q.driver
            && !r.started && !IsProxy(r.kind) && r.epoch == |Barriers(q.h)|
            && forall x :: x in q1.elv ==> (x in q.elv || x == r) && |Barriers(q1.h)| == |Barriers(q.h)|
  {
  }

  lemma AdmitNumbers(q: Queue)
    requires KeysOk(q, Keys(q))
    ensures forall b :: b in Barriers(q.h) ==> b < q.nextId
    ensures Active(q) && q.orig.Some? ==> q.orig.value.id < q.nextId
  {
  }

  lemma AdmitInOrder(q: Queue, s: Spec)
    requires Epochs(q) && PendingOk(q) && InOrder(q.list) && Enabled(q, OpAdmit(s))
    ensures InOrder(Admit(q, s).list)
  {
    var r := NewRequest(q, s);
    if !EffectiveWhere(s).Sort? {
      forall j | 0 <= j < |q.list| && !q.list[j].kind.Special? ensures Pos(q.list[j]) <= 10 * |Barriers(q.h)| {
        ListIsBounded(q, q.list[j]);
      }
      InOrderInsert(q.list, if EffectiveWhere(s).Front? then 0 else |q.list|, r);
    }
  }

  lemma AdmitPending(q: Queue, s: Spec)
    requires PendingOk(q) && Enabled(q, OpAdmit(s))
    ensures PendingOk(Admit(q, s))
  {
  }

  lemma AdmitOrder(q: Queue, s: Spec)
    requires PhaseInv(q) && OrderInv(q) && Enabled(q, OpAdmit(s))
    ensures OrderInv(Admit(q, s))
  {
    AdmitMoves(q, s);
    AdmitEpochs(q, s);
    AdmitInOrder(q, s);
    AdmitPending(q, s);
  }

  // ---------- dispatch ----------

  /** A request of an earlier epoch than the newest has a barrier, queued or in progress,
      behind it on the list. */
  lemma BarrierIsBehind(q: Queue, i: nat) returns (j: nat)
    requires Shapes(q) && Unique(q) && Gated(q) && KeysOk(q, Keys(q)) && DrainMode(q.mode)
    requires Epochs(q) && PendingOk(q) && InOrder(q.list) && Drained(q)
    requires i < |q.list| && q.list[i].kind.Fs? && !q.list[i].hard && q.list[i].epoch < |Barriers(q.h)|
    ensures i < j < |q.list| && q.list[j].hard
  {
    hide Unique, KeysOk, Gated, Keys, EpochOk, Increasing, InOrder, Pos;
    var r := q.list[i];
    if r.epoch < q.base {
      var b := BarrierProxy(q, r);
      j := LaterByPos(q.list, i, b);
    } else {
      var b := q.pending[r.epoch - q.base];
      PosOf(r, b);
      j := LaterByPos(q.list, i, b);
    }
  }

  lemma PosOf(r: Request, b: Request)
    requires r.kind.Fs? && !r.hard
    ensures b.kind.Fs? && b.hard && r.epoch <= b.epoch ==> Pos(r) < Pos(b)
    ensures b.kind.BarRq? && r.epoch <= b.epoch ==> Pos(r) < Pos(b)
  {
  }

  /** While something older than the sequence is left, its barrier proxy is on the list. */
  lemma BarrierProxy(q: Queue, r: Request) returns (b: Request)
    requires Shapes(q) && Unique(q) && Gated(q) && KeysOk(q, Keys(q)) && DrainMode(q.mode) && Epochs(q) && Drained(q)
    requires r in q.list && r.kind.Fs? && !r.hard && r.epoch < q.base
    ensures b in q.list && b.kind.BarRq? && b.hard && Pos(r) < Pos(b)
  {
    assert Active(q) ==> Started in q.ordseq;
    hide Unique, KeysOk, Gated, Keys, EpochOk, Increasing, Pos;
    assert Lo(q) <= r.epoch && Drain !in q.ordseq;
    DrainingListIsNotEmpty(q);
    b :| b in q.list && b.kind.BarRq?;
    assert ListShape(b);
    PosOf(r, b);
  }

  lemma LaterByPos(list: seq<Request>, i: nat, b: Request) returns (j: nat)
    requires InOrder(list) && i < |list| && b in list && Pos(list[i]) < Pos(b)
    requires !list[i].kind.Special? && !b.kind.Special?
    ensures i < j < |list| && list[j] == b
  {
    j :| 0 <= j < |list| && list[j] == b;
  }

  /** The backward walk of elv_dispatch_sort passes only requests of the newest epoch. */
  lemma BehindLastStop(q: Queue, i: nat)
    requires Shapes(q) && Unique(q) && Gated(q) && KeysOk(q, Keys(q)) && DrainMode(q.mode)
    requires Epochs(q) && PendingOk(q) && InOrder(q.list) && Drained(q)
    requires i < |q.list| && forall j :: i <= j < |q.list| ==> !q.list[j].soft && !q.list[j].hard
    ensures q.list[i].kind.Fs? && Pos(q.list[i]) == 10 * |Barriers(q.h)|
  {
    var r := q.list[i];
    assert ListShape(r) && Held(q, r);
    if r.epoch < |Barriers(q.h)| {
      var j := BarrierIsBehind(q, i);
    }
  }

  lemma DispatchInOrder(q: Queue, r: Request, p: nat)
    requires Shapes(q) && Unique(q) && Gated(q) && KeysOk(q, Keys(q)) && DrainMode(q.mode)
    requires Epochs(q) && PendingOk(q) && InOrder(q.list) && Drained(q) && r in q.elv
    requires p <= |q.list| && forall j :: p <= j < |q.list| ==> !q.list[j].soft && !q.list[j].hard
    ensures InOrder(InsertAt(q.list, p, r))
  {
    assert ElvShape(r);
    forall j | 0 <= j < p && !q.list[j].kind.Special? ensures Pos(q.list[j]) <= Pos(r) {
      ListIsBounded(q, q.list[j]);
    }
    forall j | p <= j < |q.list| ensures Pos(r) <= Pos(q.list[j]) { BehindLastStop(q, j); }
    InOrderInsert(q.list, p, r);
  }

  /** Epoch facts when requests only change place (a subset of those held before). */
  lemma EpochsSurvive(q: Queue, q1: Queue)
    requires Epochs(q) && q1.h == q.h && q1.ordcolor == q.ordcolor && q1.ordseq == q.ordseq
    requires q1.orig == q.orig && q1.base == q.base && q1.elv <= q.elv
    requires forall r :: Held(q1, r) ==> Held(q, r)
    requires forall r :: Live(q1, r) && r.kind.Fs? ==> r.epoch == Lo(q)
    requires forall r :: r in q1.list ==> r in q.list || r in q.elv
    requires forall r :: r in q1.driver && IsProxy(r.kind) ==> r in q.list || r in q.driver
    requires forall r :: r in q.elv ==> r.kind.Fs? && Lo(q) <= r.epoch
    ensures Epochs(q1)
  {
  }

  lemma DispatchOrder(q: Queue, r: Request, atTail: bool)
    requires PhaseInv(q) && OrderInv(q) && DrainMode(q.mode) && r in q.elv
    ensures OrderInv(Step(q, OpDispatch(r, atTail)))
  {
    hide EpochOk, Increasing, IssuesAreSafe, Keys, KeysOk, Unique, Gated, InOrder, Counted, EndsAreDue;
    var q1 := Step(q, OpDispatch(r, atTail));
    var p := if atTail then |q.list| else SortPos(q.list, r, q.endSector);
    assert q1.list == InsertAt(q.list, p, r);
    DispatchInOrder(q, r, p);
    DispatchedPlaces(q, r, p, q1);
    EpochsSurvive(q, q1);
  }

  lemma DispatchedPlaces(q: Queue, r: Request, p: nat, q1: Queue)
    requires r in q.elv && ElvShape(r) && p <= |q.list|
    requires q1.list == InsertAt(q.list, p, r) && q1.elv == q.elv - {r} && q1.driver == q.driver
    ensures forall x :: x in q1.list <==> x in q.list || x == r
    ensures forall x :: Held(q1, x) ==> Held(q, x)
    ensures forall x :: Live(q1, x) ==> Live(q, x)
  {
  }

  // ---------- dequeue ----------

  lemma DequeueOrder(q: Queue, r: Request)
    requires PhaseInv(q) && OrderInv(q) && r in q.list && r.started
    ensures OrderInv(Dequeue(q, r))
  {
    var q1 := Dequeue(q, r);
    RemovedMembers(q.list, r);
    InOrderRemove(q.list, r);
    assert ListShape(r);
    forall x | Live(q1, x) ensures Live(q, x) { }
    EpochsSurvive(q, q1);
    forall k | 0 <= k < |q.pending| ensures q.pending[k] in q1.list { assert ListShape(q.pending[k]); }
  }

  // ---------- requeue ----------

  /** A barrier still queued belongs after the one in progress. */
  lemma QueuedBarrierIsLater(q: Queue, r: Request)
    requires KeysOk(q, Keys(q)) && Epochs(q) && r in q.list && IsQueuedBarrier(r)
    ensures r.epoch >= q.base
  {
    assert Held(q, r) && KeyOf(r) in ListKeys(q.list);
    assert Active(q) ==> r.id != q.orig.value.id;
  }

  lemma ProxySkipsOlder(q: Queue, r: Request, p: nat, j: nat)
    requires Active(q) && KeysOk(q, Keys(q)) && Epochs(q) && InOrder(q.list) && PendingOk(q)
    requires IsProxy(r.kind) && r.epoch == q.base - 1
    requires j < p <= |q.list| && !q.list[j].kind.Special?
    requires forall i :: 0 <= i < p ==> Rank(ReqSeq(q.orig, q.list[i])) < Rank(PhaseOf(r.kind))
    ensures Pos(q.list[j]) <= Pos(r)
  {
    hide KeysOk, Keys, InOrder, EpochOk, Increasing;
    var x := q.list[j];
    assert Rank(ReqSeq(q.orig, x)) < Rank(PhaseOf(r.kind));
    if x.kind.Fs? {
      ColourTells(q, j);
      assert x.hard ==> x.epoch >= q.base by { if x.hard { QueuedBarrierIsLater(q, x); } }
    }
  }

  lemma ProxyStopsAtNewer(q: Queue, r: Request, p: nat, j: nat)
    requires Active(q) && Epochs(q) && InOrder(q.list) && PendingOk(q)
    requires IsProxy(r.kind) && r.epoch == q.base - 1
    requires p <= j < |q.list| && !q.list[j].kind.Special?
    requires forall i :: 0 <= i < p ==> Rank(ReqSeq(q.orig, q.list[i])) < Rank(PhaseOf(r.kind))
    requires Rank(PhaseOf(r.kind)) <= Rank(ReqSeq(q.orig, q.list[p]))
    ensures Pos(r) <= Pos(q.list[j])
  {
    hide EpochOk, Increasing;
    if q.list[p].kind.Fs? { ColourTells(q, p); }
    assert Pos(r) <= Pos(q.list[p]);
  }

  lemma OldestGoesFirst(q: Queue, r: Request)
    requires Shapes(q) && Epochs(q) && r in q.driver && r.kind.Fs?
    ensures Active(q) ==> RequeuePos(q.list, q.orig, ReqSeq(q.orig, Requeued(r))) == 0
    ensures forall j :: 0 <= j < |q.list| && !q.list[j].kind.Special? ==> Pos(r) <= Pos(q.list[j])
  {
    assert DriverShape(r) && Live(q, r) && Held(q, r);
    forall j | 0 <= j < |q.list| && !q.list[j].kind.Special? ensures Pos(r) <= Pos(q.list[j]) {
      assert Lo(q) <= q.list[j].epoch;
    }
  }

  /** Where a request taken back from the driver goes. */
  function BackAt(q: Queue, r: Request): nat {
    if Active(q) then RequeuePos(q.list, q.orig, ReqSeq(q.orig, Requeued(r))) else 0
  }

  /** The walk of a requeue passes only what belongs before the request. */
  lemma RequeueSkipsOlder(q: Queue, r: Request, j: nat)
    requires KeysOk(q, Keys(q)) && Shapes(q) && Epochs(q) && InOrder(q.list) && PendingOk(q)
    requires r in q.driver && !r.kind.Special? && j < BackAt(q, r) && !q.list[j].kind.Special?
    ensures Pos(q.list[j]) <= Pos(r)
  {
    hide EpochOk, Increasing, PendingOk, Shapes, InOrder, KeysOk, Keys;
    if r.kind.Fs? { OldestGoesFirst(q, r); } else { ProxySkipsOlder(q, Requeued(r), BackAt(q, r), j); }
  }

  /** ... and what it stops at belongs after the request. */
  lemma RequeueStopsAtNewer(q: Queue, r: Request, j: nat)
    requires KeysOk(q, Keys(q)) && Shapes(q) && Epochs(q) && InOrder(q.list) && PendingOk(q)
    requires r in q.driver && !r.kind.Special? && BackAt(q, r) <= j < |q.list| && !q.list[j].kind.Special?
    ensures Pos(r) <= Pos(q.list[j])
  {
    hide EpochOk, Increasing, PendingOk, Shapes, InOrder;
    if r.kind.Fs? {
      OldestGoesFirst(q, r);
    } else {
      KeyIsListed(q, r);
      hide KeysOk, Keys;
      ProxyStopsAtNewer(q, Requeued(r), BackAt(q, r), j);
    }
  }

  lemma RequeueInOrder(q: Queue, r: Request)
    requires KeysOk(q, Keys(q)) && Shapes(q) && Epochs(q) && InOrder(q.list) && PendingOk(q) && r in q.driver
    ensures InOrder(Requeue(q, r).list)
  {
    hide Epochs, PendingOk, Shapes, KeysOk, Keys, InOrder, RequeuePos;
    if !r.kind.Special? {
      forall j | 0 <= j < BackAt(q, r) && !q.list[j].kind.Special? ensures Pos(q.list[j]) <= Pos(r) {
        RequeueSkipsOlder(q, r, j);
      }
      forall j | BackAt(q, r) <= j < |q.list| && !q.list[j].kind.Special? ensures Pos(r) <= Pos(q.list[j]) {
        RequeueStopsAtNewer(q, r, j);
      }
    }
    InOrderInsert(q.list, BackAt(q, r), Requeued(r));
  }

  lemma RequeueEpochs(q: Queue, r: Request)
    requires Epochs(q) && r in q.driver && (IsProxy(r.kind) ==> Active(q))
    ensures Epochs(Requeue(q, r))
    ensures forall x :: x in Requeue(q, r).list ==> x in q.list || x == Requeued(r)
  {
    var q1 := Requeue(q, r);
    forall x | x in q1.list ensures x in q.list || x == Requeued(r) { }
    assert Held(q, r) && Live(q, r);
    forall x | Live(q1, x) ensures Live(q, x) { }
    forall x | Held(q1, x) && x.kind.Fs? ensures EpochOk(Barriers(q.h), x) {
      assert Held(q, x) || x == Requeued(r);
    }
  }

  lemma RequeuePending(q: Queue, r: Request)
    requires PendingOk(q)
    ensures PendingOk(Requeue(q, r))
  {
  }

  lemma RequeueOrder(q: Queue, r: Request)
    requires PhaseInv(q) && OrderInv(q) && r in q.driver
    ensures OrderInv(Requeue(q, r))
  {
    KeyIsListed(q, r);
    RequeueInOrder(q, r);
    RequeueEpochs(q, r);
    RequeuePending(q, r);
  }

  // ---------- polling ----------

  lemma StartInOrder(q: Queue)
    requires InOrder(q.list) && q.list != [] && IsQueuedBarrier(q.list[0]) && q.mode.Ordered?
    ensures InOrder(StartOrdered(q).list)
    ensures forall r :: r in q.list[1..] && !r.kind.Special? ==> Pos(r) >= 10 * q.list[0].epoch + 5
  {
    var orig := q.list[0];
    var run, rest := ProxyRun(q.mode, orig), q.list[1..];
    forall i | 0 <= i < |rest| ensures rest[i] == q.list[i + 1] { }
    var t := run + rest;
    forall i, j | 0 <= i < j < |t| && !t[i].kind.Special? && !t[j].kind.Special? ensures Pos(t[i]) <= Pos(t[j]) {
      if j >= |run| {
        assert t[j] == q.list[j - |run| + 1];
        if i >= |run| { assert t[i] == q.list[i - |run| + 1]; }
      }
    }
  }

  lemma HeadBarrierIsNext(q: Queue)
    requires Unique(q) && KeysOk(q, Keys(q)) && !Active(q) && Epochs(q) && InOrder(q.list) && PendingOk(q)
    requires q.list != [] && IsQueuedBarrier(q.list[0])
    ensures q.list[0].epoch == q.base && q.pending != [] && q.pending[0] == q.list[0]
  {
    var r := q.list[0];
    IdleHeadIsOldest(q);
    assert Held(q, r);
    var b := q.pending[0];
    var j :| 0 <= j < |q.list| && q.list[j] == b;
    assert Held(q, b) && KeyOf(b) == KeyOf(r);
  }

  lemma RunEpochs(m: Mode, orig: Request)
    requires m.Ordered?
    ensures forall r :: r in ProxyRun(m, orig) ==> IsProxy(r.kind) && !r.started && r.epoch == orig.epoch
  {
  }

  lemma StartMembers(q: Queue)
    requires q.list != [] && q.mode.Ordered? && (forall r :: r in q.list || r in q.driver ==> !IsProxy(r.kind))
    ensures var q1 := StartOrdered(q);
            && (forall x :: x in q1.list && IsProxy(x.kind) ==> x.epoch == q.list[0].epoch && !x.started)
            && (forall x :: x in q1.list && !IsProxy(x.kind) ==> x in q.list)
  {
    RunEpochs(q.mode, q.list[0]);
  }

  lemma StartEpochs(q: Queue)
    requires !Active(q) && q.mode.Ordered? && q.list != [] && IsQueuedBarrier(q.list[0])
    requires Epochs(q) && (forall r :: r in q.list || r in q.driver ==> !IsProxy(r.kind)) && q.list[0].epoch == q.base
    ensures Epochs(StartOrdered(q))
  {
    var q1 := StartOrdered(q);
    StartMembers(q);
    assert Barriers(q1.h) == Barriers(q.h) && Lo(q1) == Lo(q) == q.base;
    forall x | Held(q1, x) && x.kind.Fs? ensures EpochOk(Barriers(q1.h), x) { assert Held(q, x); }
    forall x | Live(q1, x) && x.kind.Fs? ensures x.epoch == Lo(q1) { assert Live(q, x); }
    assert Held(q, q.list[0]);
  }

  lemma StartPending(q: Queue)
    requires Unique(q) && KeysOk(q, Keys(q)) && !Active(q) && q.mode.Ordered?
    requires Epochs(q) && InOrder(q.list) && PendingOk(q) && q.list != [] && IsQueuedBarrier(q.list[0])
    ensures PendingOk(StartOrdered(q))
  {
    var q1 := StartOrdered(q);
    HeadBarrierIsNext(q);
    DistinctTail(q.list);
    forall k | 0 <= k < |q1.pending| ensures q1.pending[k] in q1.list {
      assert q1.pending[k] == q.pending[k + 1] && q.pending[k + 1] != q.list[0];
    }
  }

  lemma NoneInFlight(q: Queue)
    requires Counted(q) && q.inFlight == 0
    ensures forall r :: r in q.driver ==> !r.kind.Fs?
  {
    assert FsOf(q.driver) == {};
    assert forall r :: r in q.driver && r.kind.Fs? ==> r in FsOf(q.driver);
  }

  lemma StartDrained(q: Queue)
    requires Unique(q) && Shapes(q) && Counted(q) && KeysOk(q, Keys(q)) && !Active(q) && DrainMode(q.mode)
    requires Epochs(q) && InOrder(q.list) && PendingOk(q) && q.list != [] && IsQueuedBarrier(q.list[0])
    ensures Drained(StartOrdered(q))
  {
    hide Unique, Shapes, Counted, KeysOk, Keys, EpochOk, Increasing, Distinct;
    var q1 := StartOrdered(q);
    HeadBarrierIsNext(q);
    StartInOrder(q);
    RunEpochs(q.mode, q.list[0]);
    if Drain in q1.ordseq {
      NoneInFlight(q);
      forall r | r in q1.list && r.kind.Fs? ensures r.epoch >= q1.base {
        assert r in q.list[1..];
        LaterHardOrNext(q, r);
      }
    }
  }

  lemma LaterHardOrNext(q: Queue, r: Request)
    requires Unique(q) && Epochs(q) && q.list != [] && r in q.list[1..] && r.kind.Fs?
    requires IsQueuedBarrier(q.list[0]) && q.list[0].epoch == q.base && Pos(r) >= 10 * q.base + 5
    ensures r.epoch >= q.base + 1
  {
  }

  lemma StartOrder(q: Queue)
    requires PhaseInv(q) && OrderInv(q) && !Active(q) && DrainMode(q.mode) && q.list != [] && IsQueuedBarrier(q.list[0])
    ensures OrderInv(StartOrdered(q))
  {
    StartInOrder(q);
    HeadBarrierIsNext(q);
    NoProxies(q);
    StartEpochs(q);
    StartPending(q);
    StartDrained(q);
  }

  // ---------- ends ----------

  lemma DroppedOrder(q: Queue, r: Request, err: int)
    requires Unique(q) && OrderInv(q) && (r in q.list || r in q.driver) && !IsQueuedBarrier(r)
    ensures OrderInv(Dropped(q, r, err))
  {
    var d := Dropped(q, r, err);
    if r in q.list {
      RemovedMembers(q.list, r);
      InOrderRemove(q.list, r);
    }
    DroppedEpochs(q, d);
    assert BarriersAreFs(d.h);
  }

  lemma DroppedEpochs(q: Queue, d: Queue)
    requires Epochs(q) && Barriers(d.h) == Barriers(q.h) && d.ordcolor == q.ordcolor && d.ordseq == q.ordseq
    requires d.orig == q.orig && d.base == q.base && d.elv == q.elv && d.driver <= q.driver
    requires forall x :: x in d.list ==> x in q.list
    ensures Epochs(d)
  {
    forall x | Live(d, x) ensures Live(q, x) { }
    forall x | Held(d, x) ensures Held(q, x) { }
  }

  /** When the drain phase closes, only newer requests are left: the head of the list is
      newer by its colour, and the list is in order. */
  lemma DrainCloses(q: Queue)
    requires Shapes(q) && Counted(q) && KeysOk(q, Keys(q)) && DrainIsOver(q)
    requires Epochs(q) && InOrder(q.list) && PendingOk(q)
    ensures Drained(q.(ordseq := q.ordseq + {Drain}))
  {
    var h := q.list[0];
    if h.kind.Fs? { ColourTells(q, 0); }
    assert Pos(h) >= 10 * (q.base - 1) + 2;
    NoneInFlight(q);
    forall r | r in q.list && r.kind.Fs? ensures r.epoch >= q.base {
      var j :| 0 <= j < |q.list| && q.list[j] == r;
      assert Pos(h) <= Pos(r);
      if r.hard { QueuedBarrierIsLater(q, r); }
    }
  }

  lemma DrainCheckOrder(q: Queue)
    requires PhaseInv(q) && OrderInv(q)
    ensures OrderInv(DrainCheck(q))
  {
    hide EpochOk, Increasing, InOrder, IssuesAreSafe, KeyFacts, Shapes, EndsAreDue;
    DrainCheckSets(q);
    if DrainIsOver(q) {
      var q1 := q.(ordseq := q.ordseq + {Drain});
      DrainCloses(q);
      assert Epochs(q1);
      assert PendingOk(q1);
    }
  }

  /** A sequence closes: the epochs move on. */
  lemma CompleteOrder(q: Queue, p: Phase, err: int)
    requires OrderInv(q) && Active(q) && Drain in q.ordseq && q.orig.Some?
    requires CurSeq(q.ordseq + {p}) == Done ==> forall r :: r in q.list || r in q.driver ==> !IsProxy(r.kind)
    ensures OrderInv(CompleteSeq(q, p, err))
  {
    var q1 := CompleteSeq(q, p, err);
    assert Barriers(q1.h) == Barriers(q.h);
    assert forall r :: r in q.elv ==> Held(q, r);
    assert Epochs(q1);
    assert PendingOk(q1);
    assert Drained(q1);
  }

  /** If this proxy is the last, none is left once it has gone. */
  lemma LastProxy(q: Queue, r: Request, err: int)
    requires PhaseInv(q) && (r in q.list || r in q.driver) && IsProxy(r.kind) && Active(q)
    requires q.mode.Ordered? && !q.mode.tag ==> Reached(q.ordseq, PhaseOf(r.kind))
    requires CurSeq(q.ordseq + {PhaseOf(r.kind)}) == Done
    ensures var d := Dropped(q, r, err); forall x :: x in d.list || x in d.driver ==> !IsProxy(x.kind)
  {
    hide KeyFacts, SequenceOk, EndRequest, Reached;
    ProxyEndEquation(q, r, err);
    ProxyEnd(q, r, err);
    CompleteSeqPlaces(Dropped(q, r, err), PhaseOf(r.kind), err);
    NoProxies(EndRequest(q, r, err));
  }

  lemma ProxyEndOrder(q: Queue, r: Request, err: int)
    requires PhaseInv(q) && OrderInv(q) && (r in q.list || r in q.driver) && IsProxy(r.kind)
    requires DrainMode(q.mode) ==> Reached(q.ordseq, PhaseOf(r.kind))
    ensures OrderInv(EndRequest(q, r, err))
  {
    var d := Dropped(q, r, err);
    DroppedOrder(q, r, err);
    ProxyEndEquation(q, r, err);
    if CurSeq(q.ordseq + {PhaseOf(r.kind)}) == Done { LastProxy(q, r, err); }
    CompleteOrder(d, PhaseOf(r.kind), err);
  }

  lemma EndOrder(q: Queue, r: Request, err: int)
    requires PhaseInv(q) && OrderInv(q) && (r in q.list || r in q.driver) && !IsQueuedBarrier(r)
    requires IsProxy(r.kind) && DrainMode(q.mode) ==> Reached(q.ordseq, PhaseOf(r.kind))
    ensures OrderInv(EndRequest(q, r, err))
  {
    if IsProxy(r.kind) {
      ProxyEndOrder(q, r, err);
    } else {
      DroppedOrder(q, r, err);
      PlacesAreApart(q, r);
      EndRequestDrops(q, r, err);
      DroppedOrdinary(q, r, err);
      DrainCheckOrder(Dropped(q, r, err));
    }
  }
}
