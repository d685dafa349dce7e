/** Drain mode: requests cannot pass a barrier.  The invariant that makes one colour bit
    enough, and the promise about the order of issue.                                     */
module BarrierOrder {
  import opened Options
  import opened BarrierModel
  import opened BarrierPhases

  // ---------- what is promised about the events ----------

  /** Every file-system request admitted before id has ended. */
  ghost predicate OlderEnded(h: History, id: nat) {
    forall r :: r in AdmittedFs(h) && r < id ==> (Fs, r) in EndedKeys(h)
  }

  /** Every barrier admitted before id has ended. */
  ghost predicate OlderBarriersEnded(h: History, id: nat) {
    forall b :: b in Barriers(h) && b < id ==> (Fs, b) in EndedKeys(h)
  }

  ghost predicate BarriersAreFs(h: History) { forall b :: b in Barriers(h) ==> b in AdmittedFs(h) }

  /** May this request be shown to the driver after h? */
  ghost predicate IssueIsSafe(m: Mode, h: History, k: Kind, id: nat) {
    match k
    case Special => true
    case Fs => id !in Barriers(h) && OlderBarriersEnded(h, id)
    case PreFlushRq => OlderEnded(h, id)
    case BarRq => OlderEnded(h, id) && (m.Ordered? && m.pre ==> (PreFlushRq, id) in EndedKeys(h))
    case PostFlushRq => OlderEnded(h, id) && (BarRq, id) in EndedKeys(h)
  }

  ghost predicate IssuesAreSafe(m: Mode, h: History) {
    match h
    case Empty => true
    case Then(past, e) => IssuesAreSafe(m, past) && (e.Issued? ==> IssueIsSafe(m, past, e.kind, e.id))
  }

  // ---------- the invariant ----------

  /** Where a request belongs in the total order of a drained queue: the requests between
      two barriers, then the proxies of the second, then the second itself. */
  function Pos(r: Request): int {
    match r.kind
    case Fs => if r.hard then 10 * r.epoch + 5 else 10 * r.epoch
    case PreFlushRq => 10 * r.epoch + 2
    case BarRq => 10 * r.epoch + 3
    case PostFlushRq => 10 * r.epoch + 4
    case Special => 0
  }

  ghost predicate InOrder(s: seq<Request>) {
    forall i, j :: 0 <= i < j < |s| && !s[i].kind.Special? && !s[j].kind.Special? ==> Pos(s[i]) <= Pos(s[j])
  }

  predicate Odd(n: nat) { n % 2 == 1 }

  ghost predicate Increasing(s: seq<nat>) { forall i, j :: 0 <= i < j < |s| ==> s[i] < s[j] }

  /** The epoch of r agrees with its id and its colour. */
  ghost predicate EpochOk(bars: seq<nat>, r: Request) {
    && r.epoch <= |bars|
    && r.color == Odd(r.epoch)
    && (r.epoch > 0 ==> bars[r.epoch - 1] < r.id)
    && (r.epoch < |bars| ==> r.id <= bars[r.epoch])
    && (r.hard ==> r.epoch < |bars| && r.id == bars[r.epoch])
  }

  /** The oldest epoch that can still be outstanding. */
  function Lo(q: Queue): int { if Active(q) then q.base - 1 else q.base }

  ghost predicate Epochs(q: Queue) {
    && Increasing(Barriers(q.h))
    && q.ordcolor == Odd(|Barriers(q.h)|)
    && (forall r :: Held(q, r) && r.kind.Fs? ==> EpochOk(Barriers(q.h), r))
    && (forall r :: r in q.elv ==> r.epoch == |Barriers(q.h)|)
    && (forall r :: r in q.list && !r.kind.Special? ==> Lo(q) <= r.epoch)
    && (forall r :: Live(q, r) && r.kind.Fs? ==> r.epoch == Lo(q))
    && (forall r :: (r in q.list || r in q.driver) && IsProxy(r.kind) ==> r.epoch == q.base - 1)
    && (Active(q) ==> && q.base > 0 && q.orig.Some? && q.orig.value.epoch == q.base - 1
                      && EpochOk(Barriers(q.h), q.orig.value))
  }

  /** The barriers still queued are the ones admitted since the last sequence began. */
  ghost predicate PendingOk(q: Queue) {
    && q.base + |q.pending| == |Barriers(q.h)|
    && (forall k :: 0 <= k < |q.pending| ==>
          q.pending[k] in q.list && IsQueuedBarrier(q.pending[k]) && q.pending[k].epoch == q.base + k)
  }

  /** Once the drain phase is over, nothing older is left. */
  ghost predicate Drained(q: Queue) {
    Active(q) && Drain in q.ordseq ==>
      forall r :: (r in q.list || r in q.driver) && r.kind.Fs? ==> r.epoch >= q.base
  }

  ghost predicate OrderInv(q: Queue) {
    && !q.warned && BarriersAreFs(q.h)
    && Epochs(q) && InOrder(q.list) && PendingOk(q) && Drained(q)
    && IssuesAreSafe(q.mode, q.h)
  }

  predicate DrainMode(m: Mode) { m.Ordered? && !m.tag }

  ghost predicate Inv(q: Queue) { PhaseInv(q) && (DrainMode(q.mode) ==> OrderInv(q)) }

  // ---------- one bit is enough ----------

  /** Anything of a later epoch than the next barrier is behind that barrier. */
  lemma NextBarrierIsBefore(q: Queue, i: nat) returns (j: nat)
    requires Epochs(q) && InOrder(q.list) && PendingOk(q)
    requires i < |q.list| && q.list[i].kind.Fs? && q.list[i].epoch > q.base
    ensures j < i && q.list[j].kind.Fs? && q.list[j].hard && q.list[j].epoch == q.base
  {
    assert Held(q, q.list[i]);
    assert |q.pending| > 0 && q.pending[0] in q.list;
    j :| 0 <= j < |q.list| && q.list[j] == q.pending[0];
    assert Pos(q.list[j]) == 10 * q.base + 5 < Pos(q.list[i]);
  }

  /** Up to the next barrier, equal colour means admitted before the barrier in progress. */
  lemma ColourTells(q: Queue, i: nat)
    requires Active(q) && Epochs(q) && InOrder(q.list) && PendingOk(q)
    requires i < |q.list| && q.list[i].kind.Fs?
    requires forall j :: 0 <= j < i ==> !ReqSeq(q.orig, q.list[j]).Done?
    ensures q.list[i].color == q.orig.value.color <==> q.list[i].epoch == q.base - 1
    ensures q.list[i].epoch <= q.base
  {
    assert Held(q, q.list[i]);
    if q.list[i].epoch > q.base {
      var j := NextBarrierIsBefore(q, i);
      LaterColour(q, q.list[j]);
    }
  }

  lemma LaterColour(q: Queue, r: Request)
    requires Active(q) && Epochs(q) && r in q.list && r.kind.Fs? && r.epoch == q.base
    ensures ReqSeq(q.orig, r).Done?
  {
  }

  lemma NextBarrierHasOtherColour(q: Queue)
    requires Epochs(q) && InOrder(q.list) && PendingOk(q) && Active(q) && q.list != [] && IsQueuedBarrier(q.list[0])
    requires (Fs, q.orig.value.id) !in Keys(q) && q.orig.value.hard
    ensures q.list[0].color != q.orig.value.color
  {
    ColourTells(q, 0);
    assert Held(q, q.list[0]) && KeyOf(q.list[0]) in ListKeys(q.list);
    assert q.list[0].id != q.orig.value.id;
  }

  /** With no barrier in progress, the head of the list belongs to the oldest epoch. */
  lemma IdleHeadIsOldest(q: Queue)
    requires !Active(q) && Epochs(q) && InOrder(q.list) && PendingOk(q) && q.list != [] && q.list[0].kind.Fs?
    ensures q.list[0].epoch == q.base
  {
    if q.list[0].epoch > q.base {
      var j := NextBarrierIsBefore(q, 0);
    }
  }

  // ---------- ids and epochs ----------

  lemma OlderEpochOlderId(bars: seq<nat>, r: Request, b: Request)
    requires Increasing(bars) && EpochOk(bars, r) && EpochOk(bars, b) && b.hard && r.epoch <= b.epoch
    ensures r.id <= b.id
  {
  }

  lemma NewerEpochNewerId(bars: seq<nat>, r: Request, b: Request)
    requires Increasing(bars) && EpochOk(bars, r) && EpochOk(bars, b) && b.hard && b.epoch < r.epoch
    ensures b.id < r.id
  {
  }

  // ---------- what may be issued ----------

  lemma HolderOf(q: Queue, k: Key) returns (r: Request)
    requires k in Keys(q)
    ensures Held(q, r) && KeyOf(r) == k
  {
    if k in ListKeys(q.list) {
      r :| r in q.list && KeyOf(r) == k;
    } else {
      r :| r in q.elv + q.driver && KeyOf(r) == k;
    }
  }

  /** The drain phase is over: everything admitted before the barrier has ended. */
  lemma DrainedMeansEnded(q: Queue)
    requires KeysOk(q, Keys(q)) && Shapes(q) && Epochs(q) && PendingOk(q) && Drained(q)
    requires Active(q) && Drain in q.ordseq
    ensures OlderEnded(q.h, q.orig.value.id)
  {
    forall id | id in AdmittedFs(q.h) && id < q.orig.value.id ensures (Fs, id) in EndedKeys(q.h) { HeldIsNewer(q, id); }
  }

  lemma HeldIsNewer(q: Queue, id: nat)
    requires KeysOk(q, Keys(q)) && Shapes(q) && Epochs(q) && PendingOk(q) && Drained(q)
    requires Active(q) && Drain in q.ordseq
    ensures (Fs, id) in Keys(q) ==> id > q.orig.value.id
  {
    if (Fs, id) in Keys(q) {
      var r := HolderOf(q, (Fs, id));
      assert r in q.elv ==> r.epoch >= q.base;
      NewerEpochNewerId(Barriers(q.h), r, q.orig.value);
    }
  }

  lemma HeadBarriersEnded(q: Queue)
    requires KeysOk(q, Keys(q)) && Shapes(q) && Epochs(q) && InOrder(q.list) && PendingOk(q)
    requires q.list != [] && q.list[0].kind.Fs? && !q.list[0].hard
    requires Active(q) ==> q.list[0].epoch == q.base - 1
    requires BarriersAreFs(q.h)
    ensures OlderBarriersEnded(q.h, q.list[0].id) && q.list[0].id !in Barriers(q.h)
  {
    var r := q.list[0];
    assert Held(q, r);
    forall id | id in Barriers(q.h) && id < r.id ensures (Fs, id) in EndedKeys(q.h) { WaitingBarrierIsNewer(q, id); }
  }

  /** A barrier not yet over is newer than the ordinary request at the head. */
  lemma WaitingBarrierIsNewer(q: Queue, id: nat)
    requires KeysOk(q, Keys(q)) && Shapes(q) && Epochs(q) && InOrder(q.list) && PendingOk(q)
    requires q.list != [] && q.list[0].kind.Fs? && !q.list[0].hard && id in Barriers(q.h)
    requires Active(q) ==> q.list[0].epoch == q.base - 1
    ensures (Fs, id) in Keys(q) || Cur(q) == Some(id) ==> q.list[0].id <= id
  {
    var r := q.list[0];
    assert Held(q, r);
    if (Fs, id) in Keys(q) {
      var b := HolderOf(q, (Fs, id));
      assert b.hard && b in q.list;
      var j :| 0 <= j < |q.list| && q.list[j] == b;
      assert Pos(r) <= Pos(b);
      OlderEpochOlderId(Barriers(q.h), r, b);
    } else if Cur(q) == Some(id) {
      OlderEpochOlderId(Barriers(q.h), r, q.orig.value);
    }
  }
}
