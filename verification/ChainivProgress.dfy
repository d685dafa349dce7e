/** The asynchronous chainiv does not run in circles: without new calls every run comes to an end, and
    then every postponed request has been encrypted (crypto/chainiv.c). */
module ChainivProgress {
  import opened CryptoQueues
  import opened Chainiv

  // ---------- who is served at once ----------

  /** In every run: a call that has taken the bit is served at once exactly when every request postponed so
      far has been encrypted; otherwise it gives the bit back and is postponed itself. */
  lemma ServedInTurn(n: nat, junk: Iv, run: seq<(nat, Act)>, t: nat, a: Act)
    requires Legal(Initial(n, junk), run)
    requires var s := Run(Initial(n, junk), run); t < |s.pcs| && s.pcs[t].Look? && Enabled(s.mem, s.pcs[t], a)
    ensures var s := Run(Initial(n, junk), run);
            var next, h := Step(s, t, a).pcs[t], s.mem.history;
            if SealedByWork(h) == QueuedIn(h) then next == Serve(Job(s.pcs[t].r, false)) else next == Retreat(s.pcs[t].r)
  {
    var o := RunKeeps(Initial(n, junk), run, Nobody);
    var s := Run(Initial(n, junk), run);
    hide Run, Legal, Inv, QueuedIn, SealedByWork;
    LookingAt(s, o, t);
  }

  /** The owner of the bit that looks at the queue sees exactly the postponed requests not yet encrypted. */
  lemma LookingAt(s: State, o: Holder, t: nat)
    requires Inv(s, o) && t < |s.pcs| && s.pcs[t].Look?
    ensures var h := s.mem.history; QueuedIn(h) == SealedByWork(h) + s.mem.queue.list && s.mem.queue.qlen == |s.mem.queue.list|
  {
    hide Primed, Attended, AllFaithful, Honest, QueuedIn, SealedByWork;
    assert Owns(s.pcs[t]);
    var h := s.mem.history;
    assert QueuedIn(h) == SealedByWork(h) + [] + s.mem.queue.list;
  }

  // ---------- no livelock ----------

  /** Pending work, and a queued request, are worth this many steps. */
  const WORK := 7
  const QUEUED := 13

  /** How much a thread can still do, if the queue is empty or not; n threads may look at it. */
  function Effort(p: Pc, waiting: bool, n: nat): nat {
    var w := if waiting then WORK + 2 else 0;
    match p
    case Idle => 0
    case Return(_, _) => 1
    case Schedule(_, _) => WORK + 2
    case Reset(_, _) => WORK + 3
    case Recount(_, _) => 2 + w
    case Clear(_, _) => 3 + w
    case Count(_, _) => 4 + w
    case Read(_) => 5 + w
    case Take => 6
    case Store(_, _) => WORK + 8
    case Cipher(_, _, _) => WORK + 9
    case Info(_, _) => WORK + 10
    case Serve(_) => WORK + 11
    case Note(_, _) => WORK + 8
    case Retest(_, _) => WORK + 9
    case Postpone(_) => WORK + 10 + QUEUED + n * (WORK + 2)
    case Retreat(_) => WORK + 11 + QUEUED + n * (WORK + 2)
    case Look(_) => WORK + 12 + QUEUED + n * (WORK + 2)
    case Test(_) => WORK + 13 + QUEUED + n * (WORK + 2)
    case FirstClear(_) => WORK + 14 + QUEUED + n * (WORK + 2)
    case FirstSeed(_) => WORK + 15 + QUEUED + n * (WORK + 2)
    case FirstCheck(_) => WORK + 16 + QUEUED + n * (WORK + 2)
    case FirstTest(_) => WORK + 17 + QUEUED + n * (WORK + 2)
  }

  function Efforts(pcs: seq<Pc>, waiting: bool, n: nat): nat {
    if pcs == [] then 0 else Effort(pcs[0], waiting, n) + Efforts(pcs[1..], waiting, n)
  }

  function Waiting(m: Shared): bool { m.queue.list != [] }

  /** How many steps can follow without a new call. */
  function Left(s: State): nat {
    Efforts(s.pcs, Waiting(s.mem), |s.pcs|) + (if s.mem.pending then WORK else 0) + QUEUED * |s.mem.queue.list|
  }

  lemma {:induction false} EffortsUpdate(pcs: seq<Pc>, t: nat, p: Pc, waiting: bool, n: nat)
    requires t < |pcs|
    ensures Efforts(pcs[t := p], waiting, n) + Effort(pcs[t], waiting, n) == Efforts(pcs, waiting, n) + Effort(p, waiting, n)
    decreases |pcs|
  {
    hide Effort;
    if t > 0 {
      assert pcs[t := p][1..] == pcs[1..][t - 1 := p];
      EffortsUpdate(pcs[1..], t - 1, p, waiting, n);
    } else {
      assert pcs[t := p][1..] == pcs[1..];
    }
  }

  /** A queue that fills costs each thread at most another round; one that empties costs nothing. */
  lemma {:induction false} EffortsShift(pcs: seq<Pc>, n: nat)
    ensures Efforts(pcs, false, n) <= Efforts(pcs, true, n) <= Efforts(pcs, false, n) + |pcs| * (WORK + 2)
  {
    if pcs != [] {
      EffortShifts(pcs[0], n);
      hide Effort;
      EffortsShift(pcs[1..], n);
      assert |pcs| * (WORK + 2) == (WORK + 2) + |pcs[1..]| * (WORK + 2);
    }
  }

  lemma EffortShifts(p: Pc, n: nat)
    ensures Effort(p, false, n) <= Effort(p, true, n) <= Effort(p, false, n) + (WORK + 2)
  {
  }

  /** What a thread, the pending work and the queue are worth together; w says whether the queue is filled. */
  function Worth(m: Shared, p: Pc, w: bool, n: nat): nat {
    Effort(p, w, n) + (if m.pending then WORK else 0) + QUEUED * |m.queue.list|
  }

  /** One step of a thread, counted against what the queue is then. */
  lemma MoveCosts(m: Shared, p: Pc, a: Act, n: nat)
    requires Enabled(m, p, a) && !a.Call?
    ensures var r := Move(m, p, a);
            && Worth(r.mem, r.pc, Waiting(r.mem), n) < Worth(m, p, Waiting(r.mem), n)
            && (Waiting(r.mem) && !Waiting(m) ==> Worth(r.mem, r.pc, true, n) + n * (WORK + 2) < Worth(m, p, true, n))
  {
    if p.Postpone? {
      PostponeCosts(m, p, a, n);
    } else if p.Take? && m.queue.qlen != 0 {
      TakeCosts(m, p, a, n);
    } else {
      SameQueue(m, p, a);
      OtherCosts(m, p, a, n);
      hide Move, Worth;
    }
  }

  lemma PostponeCosts(m: Shared, p: Pc, a: Act, n: nat)
    requires Enabled(m, p, a) && p.Postpone?
    ensures var r := Move(m, p, a); forall w :: Worth(r.mem, r.pc, w, n) + n * (WORK + 2) < Worth(m, p, w, n)
  {
    var q := Enqueue(m.queue, p.r);
    assert |q.list| <= |m.queue.list| + 1;
    hide Enqueue, Accepts, EnqueueResult;
  }

  lemma TakeCosts(m: Shared, p: Pc, a: Act, n: nat)
    requires Enabled(m, p, a) && p.Take? && m.queue.qlen != 0
    ensures var r := Move(m, p, a); forall w :: Worth(r.mem, r.pc, w, n) < Worth(m, p, w, n)
    ensures Waiting(m)
  {
    assert |Dequeue(m.queue).list| == |m.queue.list| - 1;
    hide Dequeue;
  }

  lemma OtherCosts(m: Shared, p: Pc, a: Act, n: nat)
    requires Enabled(m, p, a) && !a.Call? && !p.Postpone? && !(p.Take? && m.queue.qlen != 0)
    ensures var r := Move(m, p, a); Worth(r.mem, r.pc, Waiting(m), n) < Worth(m, p, Waiting(m), n)
  {
    hide Enqueue, Dequeue, Accepts, EnqueueResult;
  }

  lemma SameQueue(m: Shared, p: Pc, a: Act)
    requires Enabled(m, p, a) && !p.Postpone? && !(p.Take? && m.queue.qlen != 0)
    ensures Move(m, p, a).mem.queue == m.queue
  {
  }

  lemma StepCosts(s: State, t: nat, a: Act)
    requires t < |s.pcs| && Enabled(s.mem, s.pcs[t], a) && !a.Call?
    ensures Left(Step(s, t, a)) < Left(s)
  {
    hide Move, Effort, Efforts, Enabled;
    var r, n := Move(s.mem, s.pcs[t], a), |s.pcs|;
    MoveCosts(s.mem, s.pcs[t], a, n);
    EffortsUpdate(s.pcs, t, r.pc, Waiting(r.mem), n);
    EffortsShift(s.pcs, n);
  }

  predicate NoCalls(run: seq<(nat, Act)>) { forall i :: 0 <= i < |run| ==> !run[i].1.Call? }

  /** From any state, however the threads interleave: without new calls a run has at most this many steps. */
  lemma {:induction false} NoLivelock(s: State, run: seq<(nat, Act)>)
    requires Legal(s, run) && NoCalls(run)
    ensures |run| <= Left(s)
    decreases |run|
  {
    if run != [] {
      StepCosts(s, run[0].0, run[0].1);
      hide Left, Step;
      NoLivelock(Step(s, run[0].0, run[0].1), run[1..]);
    }
  }

  /** The thread can neither go on nor start pending work. */
  ghost predicate Stopped(m: Shared, p: Pc) { forall a: Act :: !a.Call? ==> !Possible(m, p, a) }

  ghost predicate AtRest(s: State) { forall t :: 0 <= t < |s.pcs| ==> Stopped(s.mem, s.pcs[t]) }

  lemma StoppedMeans(m: Shared, p: Pc)
    requires Stopped(m, p)
    ensures p == Idle && !m.pending
  {
    var go: Act := Go([], 0, []);
    assert !go.Call?;
    assert !Start.Call?;
  }

  /** Where a run has come to rest every postponed request has been encrypted. */
  lemma RestMeansDone(n: nat, junk: Iv, run: seq<(nat, Act)>)
    requires n > 0 && Legal(Initial(n, junk), run) && AtRest(Run(Initial(n, junk), run))
    ensures var h := Run(Initial(n, junk), run).mem.history; SealedByWork(h) == QueuedIn(h)
  {
    var s := Run(Initial(n, junk), run);
    ThreadsStay(Initial(n, junk), run);
    hide Run, Legal;
    forall i | 0 <= i < |s.pcs| ensures s.pcs[i] == Idle && !s.mem.pending { StoppedMeans(s.mem, s.pcs[i]); }
    assert s.pcs[0] == Idle;
    NobodyIsStranded(n, junk, run);
  }

  lemma {:induction false} ThreadsStay(s: State, run: seq<(nat, Act)>)
    requires Legal(s, run)
    ensures |Run(s, run).pcs| == |s.pcs|
    decreases |run|
  {
    hide Move;
    if run != [] { ThreadsStay(Step(s, run[0].0, run[0].1), run[1..]); }
  }
}
