/** The phases of a barrier sequence, in drain and in tag mode: every phase bit is set
    once, the sequence closes exactly when all are set, and the original barrier is then
    ended once, with the first error any phase reported.                                 */
module BarrierPhases {
  import opened Options
  import opened BarrierModel

  // ---------- what is promised about the events ----------

  /** May this end be reported after h?  Nothing ends twice.  In an ordered mode a barrier
      ends only through its sequence, after each of its phases, with the first error. */
  predicate EndIsDue(m: Mode, h: History, k: Kind, id: nat, err: int) {
    && (k, id) !in EndedKeys(h)
    && (m.Ordered? && k.Fs? && id in Barriers(h) ==>
          && id in Sequences(h)
          && (BarRq, id) in EndedKeys(h)
          && (Sequences(h)[id].0 ==> (PreFlushRq, id) in EndedKeys(h))
          && (Sequences(h)[id].1 ==> (PostFlushRq, id) in EndedKeys(h))
          && err == SequenceError(h))
  }

  predicate EndsAreDue(m: Mode, h: History) {
    match h
    case Empty => true
    case Then(past, e) => EndsAreDue(m, past) && (e.Ended? ==> EndIsDue(m, past, e.kind, e.id, e.err))
  }

  // ---------- the invariant ----------

  predicate Held(q: Queue, r: Request) { r in q.elv || r in q.list || r in q.driver }

  function ListKeys(s: seq<Request>): set<Key> { set r | r in s :: KeyOf(r) }

  function SetKeys(s: set<Request>): set<Key> { set r | r in s :: KeyOf(r) }

  function Keys(q: Queue): set<Key> { ListKeys(q.list) + SetKeys(q.elv + q.driver) }

  ghost predicate Distinct(s: seq<Request>) {
    forall i, j :: 0 <= i < j < |s| ==> KeyOf(s[i]) != KeyOf(s[j])
  }

  /** A request is in one place only, and its key identifies it. */
  ghost predicate Unique(q: Queue) {
    && Distinct(q.list)
    && q.elv !! q.driver
    && (forall r, s :: r in q.elv + q.driver && s in q.elv + q.driver && KeyOf(r) == KeyOf(s) ==> r == s)
    && ListKeys(q.list) !! SetKeys(q.elv + q.driver)
  }

  predicate ElvShape(r: Request) { r.kind.Fs? && !r.hard && !r.started }

  predicate DriverShape(r: Request) { r.started && !IsQueuedBarrier(r) && (IsProxy(r.kind) ==> r.hard) }

  predicate ListShape(r: Request) {
    && (!r.kind.Fs? ==> r.soft)
    && (IsProxy(r.kind) ==> r.hard)
    && (r.started ==> !IsQueuedBarrier(r))
  }

  ghost predicate Shapes(q: Queue) {
    && (forall r :: r in q.elv ==> ElvShape(r))
    && (forall r :: r in q.driver ==> DriverShape(r))
    && (forall r :: r in q.list ==> ListShape(r))
    && (forall r :: Held(q, r) && r.kind.Fs? ==> (r.hard <==> r.id in Barriers(q.h)))
  }

  function FsOf(s: set<Request>): set<Request> { set r | r in s && IsFs(r) }

  predicate Counted(q: Queue) { q.inFlight == |FsOf(q.driver)| }

  /** Shown to the driver and not yet ended. */
  predicate Live(q: Queue, r: Request) { r in q.driver || (r in q.list && r.started) }

  predicate Reached(s: set<Phase>, p: Phase) {
    forall o :: o in {Drain, Pre, Bar, Post} && Rank(o) < Rank(p) ==> o in s
  }

  /** Where draining orders the phases, a proxy is live only in its turn. */
  ghost predicate Gated(q: Queue) {
    && (q.mode.Ordered? && q.mode.tag && Active(q) ==> Drain in q.ordseq)
    && (q.mode.Ordered? && !q.mode.tag ==>
          && (Bar in q.ordseq ==> Drain in q.ordseq)
          && (forall r :: Active(q) && Live(q, r) && IsProxy(r.kind) ==> Reached(q.ordseq, PhaseOf(r.kind))))
    && (q.mode.Unordered? ==> !Active(q))
  }

  /** The sequence in progress, told by the outstanding keys. */
  ghost predicate SequenceOk(m: Mode, ks: set<Key>, s: set<Phase>, orig: Request, h: History) {
    var ended := EndedKeys(h);
    && m.Ordered? && Started in s && Done !in s
    && IsQueuedBarrier(orig) && (Fs, orig.id) !in ks && (Fs, orig.id) !in ended && orig.id in Barriers(h)
    && orig.id in Sequences(h) && Sequences(h)[orig.id] == (m.pre, NeedsPost(m, orig))
    && (Pre !in s <==> (PreFlushRq, orig.id) in ks)
    && (Bar !in s <==> (BarRq, orig.id) in ks)
    && (Post !in s <==> (PostFlushRq, orig.id) in ks)
    && (Pre in s && m.pre ==> (PreFlushRq, orig.id) in ended)
    && (Bar in s ==> (BarRq, orig.id) in ended)
    && (Post in s && NeedsPost(m, orig) ==> (PostFlushRq, orig.id) in ended)
    && CurSeq(s) != Done
  }

  /** Outstanding keys against the history; cur is the barrier in progress, if any. */
  ghost predicate KeyFacts(ks: set<Key>, h: History, nextId: nat, cur: Option<nat>) {
    && ks !! EndedKeys(h)
    && (forall k :: k in ks || k in EndedKeys(h) ==> k.1 < nextId)
    && (forall b :: b in Barriers(h) ==> b < nextId)
    && (forall k :: k in ks && IsProxy(k.0) ==> cur == Some(k.1))
    && (forall k :: k in EndedKeys(h) && IsProxy(k.0) ==> k.1 in Sequences(h))
    && (forall k :: k in ks && k.0.Fs? ==> k.1 !in Sequences(h))
    && (forall id :: id in Sequences(h) ==> id < nextId)
    && (forall id :: id in AdmittedFs(h) ==> (Fs, id) in ks || (Fs, id) in EndedKeys(h) || cur == Some(id))
  }

  /** The barrier and every phase that its sequence has are over. */
  predicate SequenceIsOver(h: History, id: nat) {
    && id in Sequences(h)
    && (Fs, id) in EndedKeys(h)
    && (BarRq, id) in EndedKeys(h)
    && (Sequences(h)[id].0 ==> (PreFlushRq, id) in EndedKeys(h))
    && (Sequences(h)[id].1 ==> (PostFlushRq, id) in EndedKeys(h))
  }

  /** Every sequence begun is over, but for the one in progress. */
  ghost predicate OthersAreOver(h: History, cur: Option<nat>) {
    forall id :: id in Sequences(h) && cur != Some(id) ==> SequenceIsOver(h, id)
  }

  function Cur(q: Queue): Option<nat> {
    if Active(q) && q.orig.Some? then Some(q.orig.value.id) else None
  }

  ghost predicate KeysOk(q: Queue, ks: set<Key>) {
    && KeyFacts(ks, q.h, q.nextId, Cur(q)) && OthersAreOver(q.h, Cur(q))
    && (Active(q) ==> q.orig.Some? && SequenceOk(q.mode, ks, q.ordseq, q.orig.value, q.h))
  }

  ghost predicate PhaseInv(q: Queue) {
    && !q.bug
    && Unique(q) && Shapes(q) && Counted(q) && Gated(q)
    && KeysOk(q, Keys(q))
    && q.orderr == SequenceError(q.h)
    && EndsAreDue(q.mode, q.h)
  }

  function Issues(h: History): nat {
    match h
    case Empty => 0
    case Then(past, e) => (if e.Issued? then 1 else 0) + Issues(past)
  }

  lemma CompleteIssues(q: Queue, p: Phase, err: int)
    ensures Issues(CompleteSeq(q, p, err).h) == Issues(q.h)
  {
  }

  lemma EndIssues(q: Queue, r: Request, err: int)
    ensures Issues(EndRequest(q, r, err).h) == Issues(q.h)
  {
    hide CompleteSeq, Remove;
    var q1 := if r in q.list then Dequeue(q, r) else q;
    var q2 := Log(q1.(driver := q1.driver - {r}), Ended(r.kind, r.id, err));
    var q3 := if Accounted(r) then q2.(inFlight := q2.inFlight - 1) else q2;
    CompleteIssues(q3.(bug := DrainCheck(q3).bug), Drain, 0);
    CompleteIssues(q3.(bug := q3.bug || (Active(q3) && q3.inFlight == 0 && CurSeq(q3.ordseq) == Drain && q3.list == [])), Drain, 0);
    if IsProxy(r.kind) { CompleteIssues(CompletedRequest(q2, r), PhaseOf(r.kind), err); }
  }

  /** A request let through is issued by the same poll, whatever the driver makes of it. */
  lemma PassIssues(q: Queue, prep: Prep)
    requires q.list != [] && DoOrdered(q).1 == Pass
    ensures Issues(Poll(q, prep).h) == Issues(q.h) + 1
  {
    hide EndRequest, MarkStarted;
    var q1 := DoOrdered(q).0;
    assert q1.list != [] && Issues(q1.h) == Issues(q.h);
    hide DoOrdered;
    var q2 := Log(q1, IssueOf(q1.list[0]));
    EndIssues(q2, q1.list[0], 0);
    MarkIssues(q2);
    EndIssues(MarkStarted(q2), MarkStarted(q2).list[0], -5);
  }

  lemma MarkIssues(q: Queue)
    requires q.list != []
    ensures MarkStarted(q).list != [] && MarkStarted(q).h == q.h
  {
  }

  lemma InitialPhaseInv(m: Mode)
    ensures PhaseInv(Initial(m))
  {
  }
}
