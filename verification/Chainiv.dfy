/** The asynchronous half of crypto/chainiv.c as a step system: any number of threads call
    async_chainiv_givencrypt or run the deferred work, and the steps interleave freely.

    A step is one atomic bit operation, one read of the queue length, one region under the
    queue lock, or one access to the shared IV or error field.                             */
module Chainiv {
  import opened CryptoQueues

  type Iv = seq<bv8>

  /** A request to encrypt; `worker` tells whether the deferred work serves it. */
  datatype Job = Job(r: Request, worker: bool)

  /** What async_chainiv_schedule_work reports for: nothing, a served request, or a postponed one. */
  datatype End = Nothing | Reply(r: Request, mine: int, served: bool)

  datatype Pc = Idle
              // async_chainiv_givencrypt_first
              | FirstTest(r: Request) | FirstCheck(r: Request) | FirstSeed(r: Request) | FirstClear(r: Request)
              // async_chainiv_givencrypt and async_chainiv_postpone_request
              | Test(r: Request) | Look(r: Request) | Retreat(r: Request)
              | Postpone(r: Request) | Retest(r: Request, mine: int) | Note(r: Request, mine: int)
              // async_chainiv_do_postponed
              | Take
              // async_chainiv_givencrypt_tail
              | Serve(job: Job) | Info(job: Job, giv: Iv) | Cipher(job: Job, giv: Iv, info: Iv) | Store(job: Job, info: Iv)
              // async_chainiv_schedule_work
              | Read(end: End) | Count(end: End, err: int) | Clear(end: End, err: int)
              | Recount(end: End, err: int) | Reset(end: End, err: int) | Schedule(end: End, err: int)
              | Return(end: End, err: int)

  datatype Event = Seeded(iv: Iv)
                 | Queued(q: Request, qerr: int) | Refused(x: Request, xerr: int) | Taken(t: Request)
                 | Sealed(job: Job, giv: Iv, info: Iv, result: int, out: Iv)
                 | Reported(end: End, err: int)

  datatype History = Empty | Then(past: History, event: Event)

  /** What the threads share. `first` tells whether the transform still points at the seeding
      entry point; `bug` records that schedule_work found the work already pending. */
  datatype Shared = Shared(inuse: bool, queue: Queue, err: int, iv: Iv, pending: bool, first: bool, bug: bool,
                           history: History)

  datatype State = State(mem: Shared, pcs: seq<Pc>)

  /** A call, the work queue starting the pending work, or a thread going on; the last carries the
      random bytes and the child cipher's result should the step need them. */
  datatype Act = Call(r: Request) | Start | Go(random: Iv, result: int, out: Iv)

  datatype Moved = Moved(mem: Shared, pc: Pc)

  function Initial(n: nat, junk: Iv): State {
    State(Shared(false, Init(100), 0, junk, false, true, false, Empty), seq(n, i => Idle))
  }

  /** Where it stands, may a thread take this step? */
  predicate Possible(m: Shared, p: Pc, a: Act) { (a.Go? <==> p != Idle) && (a.Start? ==> m.pending) }

  predicate Enabled(m: Shared, p: Pc, a: Act) { Possible(m, p, a) && m.queue.qlen == |m.queue.list| }

  function Log(m: Shared, e: Event): Shared { m.(history := Then(m.history, e)) }

  /** One step of a thread at p. */
  function Move(m: Shared, p: Pc, a: Act): Moved
    requires Enabled(m, p, a)
  {
    match p
    case Idle =>
      if a.Start? then Moved(m.(pending := false), Take) else Moved(m, if m.first then FirstTest(a.r) else Test(a.r))
    case FirstTest(r) => Moved(m.(inuse := true), if m.inuse then Test(r) else FirstCheck(r))
    case FirstCheck(r) => Moved(m.(first := false), if m.first then FirstSeed(r) else FirstClear(r))
    case FirstSeed(r) => Moved(Log(m.(iv := a.random), Seeded(a.random)), FirstClear(r))
    case FirstClear(r) => Moved(m.(inuse := false), Test(r))
    case Test(r) => Moved(m.(inuse := true), if m.inuse then Postpone(r) else Look(r))
    case Look(r) => Moved(m, if m.queue.qlen != 0 then Retreat(r) else Serve(Job(r, false)))
    case Retreat(r) => Moved(m.(inuse := false), Postpone(r))
    case Postpone(r) =>
      var mine := EnqueueResult(m.queue);
      var e := if Accepts(m.queue, r) then Queued(r, mine) else Refused(r, mine);
      Moved(Log(m.(queue := Enqueue(m.queue, r)), e), Retest(r, mine))
    case Retest(r, mine) =>
      Moved(m.(inuse := true), if m.inuse then Return(Reply(r, mine, false), mine) else Note(r, mine))
    case Note(r, mine) => Moved(m.(err := mine), Read(Reply(r, mine, false)))
    case Take =>
      if m.queue.qlen == 0 then Moved(m, Read(Nothing))
      else Moved(Log(m.(queue := Dequeue(m.queue)), Taken(m.queue.list[0])), Serve(Job(m.queue.list[0], true)))
    case Serve(job) => Moved(m, Info(job, m.iv))
    case Info(job, giv) => Moved(m, Cipher(job, giv, m.iv))
    case Cipher(job, giv, info) =>
      Moved(Log(m.(err := a.result), Sealed(job, giv, info, a.result, a.out)),
            if a.result == 0 then Store(job, a.out) else Read(Reply(job.r, a.result, true)))
    case Store(job, info) => Moved(m.(iv := info), Read(Reply(job.r, 0, true)))
    case Read(end) => Moved(m, Count(end, m.err))
    case Count(end, err) => Moved(m, if m.queue.qlen == 0 then Clear(end, err) else Schedule(end, err))
    case Clear(end, err) => Moved(m.(inuse := false), Recount(end, err))
    case Recount(end, err) => Moved(m, if m.queue.qlen == 0 then Return(end, err) else Reset(end, err))
    case Reset(end, err) => Moved(m.(inuse := true), if m.inuse then Return(end, err) else Schedule(end, err))
    case Schedule(end, err) => Moved(m.(pending := true, bug := m.bug || m.pending), Return(end, err))
    case Return(end, err) => Moved(Log(m, Reported(end, err)), Idle)
  }

  function Step(s: State, t: nat, a: Act): State
    requires t < |s.pcs| && Enabled(s.mem, s.pcs[t], a)
  {
    var n := Move(s.mem, s.pcs[t], a);
    State(n.mem, s.pcs[t := n.pc])
  }

  // ---------- what the history says ----------

  predicate SeededIn(h: History) { h.Then? && (h.event.Seeded? || SeededIn(h.past)) }

  /** The chaining value: the seed, then the cipher's output for each request that succeeded. */
  function Latest(h: History): Iv {
    match h
    case Empty => []
    case Then(_, Seeded(iv)) => iv
    case Then(p, Sealed(_, _, _, result, out)) => if result == 0 then out else Latest(p)
    case Then(p, _) => Latest(p)
  }

  /** Seeded once, and before any encryption; every encryption reports and uses the chaining
      value its predecessor left. */
  ghost predicate Chained(h: History) {
    match h
    case Empty => true
    case Then(p, Seeded(_)) => Chained(p) && !SeededIn(p)
    case Then(p, Sealed(_, giv, info, _, _)) => Chained(p) && SeededIn(p) && giv == Latest(p) && info == Latest(p)
    case Then(p, _) => Chained(p)
  }

  function QueuedIn(h: History): seq<Request> {
    match h
    case Empty => []
    case Then(p, Queued(r, _)) => QueuedIn(p) + [r]
    case Then(p, _) => QueuedIn(p)
  }

  /** The requests the deferred work encrypted. */
  function SealedByWork(h: History): seq<Request> {
    match h
    case Empty => []
    case Then(p, Sealed(Job(r, true), _, _, _, _)) => SealedByWork(p) + [r]
    case Then(p, _) => SealedByWork(p)
  }

  /** The result that e stands for is one its own request was given. */
  ghost predicate Vouched(h: History, e: End) {
    e.Reply? ==> h.Then? && (EventVouches(h.event, e) || Vouched(h.past, e))
  }

  predicate EventVouches(v: Event, e: End)
    requires e.Reply?
  {
    match v
    case Sealed(job, _, _, result, _) => e.served && job.r == e.r && result == e.mine
    case Queued(r, err) => !e.served && r == e.r && err == e.mine
    case Refused(r, err) => !e.served && r == e.r && err == e.mine
    case _ => false
  }

  /** Whatever the threads share the error field for, each reports its own request's result. */
  ghost predicate Honest(h: History) {
    match h
    case Empty => true
    case Then(p, Reported(end, err)) => Honest(p) && Vouched(p, end) && (end.Reply? ==> err == end.mine)
    case Then(p, _) => Honest(p)
  }

  // ---------- ownership ----------

  /** Between setting the in-use bit and clearing it or handing it to the work. */
  predicate Owns(p: Pc) {
    p.FirstCheck? || p.FirstSeed? || p.FirstClear? || p.Look? || p.Retreat? || p.Note? || p.Take? ||
    p.Serve? || p.Info? || p.Cipher? || p.Store? || p.Read? || p.Count? || p.Clear? || p.Schedule?
  }

  datatype Holder = Nobody | Work | Thread(i: nat)

  /** The bit is set exactly while somebody owns it, and the one owner is a thread or the pending work. */
  ghost predicate Held(s: State, o: Holder) {
    && (forall i :: 0 <= i < |s.pcs| ==> (Owns(s.pcs[i]) <==> o == Thread(i)))
    && (o.Thread? ==> o.i < |s.pcs|)
    && (s.mem.pending <==> o == Work)
    && (s.mem.inuse <==> o != Nobody)
    && !s.mem.bug
  }

  function HolderPc(s: State, o: Holder): Pc { if o.Thread? && o.i < |s.pcs| then s.pcs[o.i] else Idle }

  function HolderAfter(s: State, t: nat, a: Act, o: Holder): Holder
    requires t < |s.pcs| && Enabled(s.mem, s.pcs[t], a)
  {
    var n := Move(s.mem, s.pcs[t], a);
    if Owns(n.pc) then Thread(t) else if !Owns(s.pcs[t]) then o else if n.mem.pending then Work else Nobody
  }

  /** How a step moves the bit: not at all, taken, received from the work, handed to it, or released. */
  lemma MovePasses(m: Shared, p: Pc, a: Act)
    requires Enabled(m, p, a) && (Owns(p) ==> m.inuse && !m.pending) && (m.pending ==> m.inuse)
    ensures var n := Move(m, p, a);
            && n.mem.queue.qlen == |n.mem.queue.list|
            && n.mem.bug == m.bug
            && (Owns(p) == Owns(n.pc) ==> n.mem.inuse == m.inuse && n.mem.pending == m.pending)
            && (!Owns(p) && Owns(n.pc) ==> n.mem.inuse && !n.mem.pending && m.inuse == m.pending)
            && (Owns(p) && !Owns(n.pc) ==> n.mem.inuse == n.mem.pending)
  {
  }

  lemma StepHolds(s: State, t: nat, a: Act, o: Holder)
    requires t < |s.pcs| && Enabled(s.mem, s.pcs[t], a) && Held(s, o)
    ensures Held(Step(s, t, a), HolderAfter(s, t, a, o))
  {
    assert Owns(s.pcs[t]) <==> o == Thread(t);
    MovePasses(s.mem, s.pcs[t], a);
    hide Move, Owns;
  }

  // ---------- nothing is stranded ----------

  /** A thread on its way to testing the bit, after which either it or the bit's owner will look at the queue. */
  predicate Due(p: Pc) { p.Test? || p.Postpone? || p.Retest? || p.Recount? || p.Reset? }

  ghost predicate Attended(s: State) {
    s.mem.queue.list != [] ==> s.mem.inuse || exists i :: 0 <= i < |s.pcs| && Due(s.pcs[i])
  }

  /** A step that leaves a queue with the bit clear leaves its own thread due, unless it found things so. */
  lemma MoveAttends(m: Shared, p: Pc, a: Act)
    requires Enabled(m, p, a)
    ensures var n := Move(m, p, a);
            n.mem.queue.list != [] && !n.mem.inuse ==> Due(n.pc) || (m.queue.list != [] && !m.inuse && !Due(p))
  {
  }

  lemma StepAttends(s: State, t: nat, a: Act)
    requires t < |s.pcs| && Enabled(s.mem, s.pcs[t], a) && Attended(s)
    ensures Attended(Step(s, t, a))
  {
    var s' := Step(s, t, a);
    MoveAttends(s.mem, s.pcs[t], a);
    hide Move, Due;
    if s'.mem.queue.list != [] && !s'.mem.inuse {
      if Due(s'.pcs[t]) {
      } else {
        var i :| 0 <= i < |s.pcs| && Due(s.pcs[i]);
        assert Due(s'.pcs[i]);
      }
    }
  }

  // ---------- the seed ----------

  predicate Early(p: Pc) { p.Idle? || p.FirstTest? }

  /** Until it is seeded the IV belongs to the thread q that will seed it, or nobody has come far
      enough to use it (`early`). */
  ghost predicate Primed(m: Shared, q: Pc, early: bool) {
    if SeededIn(m.history) then !m.first && !q.FirstSeed?
    else if m.first then q.FirstCheck? || (!m.inuse && early) else q.FirstSeed?
  }

  // ---------- the chain ----------

  ghost predicate IvOk(m: Shared, q: Pc) {
    match q
    case Store(_, info) => Latest(m.history) == info
    case Info(_, giv) => Latest(m.history) == m.iv == giv
    case Cipher(_, giv, info) => Latest(m.history) == m.iv == giv == info
    case _ => SeededIn(m.history) ==> Latest(m.history) == m.iv
  }

  // ---------- order ----------

  function InHand(q: Pc): seq<Request> {
    if (q.Serve? || q.Info? || q.Cipher?) && q.job.worker then [q.job.r] else []
  }

  /** Encrypted by the work, in its hands, queued: in this order, all that was ever queued. */
  ghost predicate InOrder(m: Shared, q: Pc) {
    QueuedIn(m.history) == SealedByWork(m.history) + InHand(q) + m.queue.list
  }

  ghost predicate Owned(m: Shared, q: Pc) { IvOk(m, q) && Chained(m.history) && InOrder(m, q) }

  /** A step of a thread that neither has nor takes the bit leaves the owner's view alone. */
  lemma ForeignStep(m: Shared, p: Pc, a: Act, q: Pc)
    requires Enabled(m, p, a) && !Owns(p) && !Owns(Move(m, p, a).pc) && Owned(m, q)
    ensures var n := Move(m, p, a).mem;
            && Owned(n, q) && n.iv == m.iv && n.err == m.err && n.first == m.first
            && SeededIn(n.history) == SeededIn(m.history)
  {
    hide InOrder;
    ForeignOrders(m, p, a, q);
  }

  lemma ForeignOrders(m: Shared, p: Pc, a: Act, q: Pc)
    requires Enabled(m, p, a) && !Owns(p) && !Owns(Move(m, p, a).pc) && InOrder(m, q)
    ensures InOrder(Move(m, p, a).mem, q)
  {
  }

  /** A step that has or takes the bit carries the chain on. */
  lemma OwnerStep(m: Shared, p: Pc, a: Act, early: bool)
    requires Enabled(m, p, a) && (Owns(p) || Owns(Move(m, p, a).pc))
    requires (early ==> Early(p)) && (m.pending ==> m.inuse)
    requires Owned(m, if Owns(p) then p else Idle) && Primed(m, if Owns(p) then p else Idle, early)
    ensures var n := Move(m, p, a); Owned(n.mem, if Owns(n.pc) then n.pc else Idle)
  {
    hide Move, IvOk, Chained, InOrder, Primed;
    OwnerChains(m, p, a, early);
    OwnerOrders(m, p, a);
  }

  lemma OwnerOrders(m: Shared, p: Pc, a: Act)
    requires Enabled(m, p, a) && (Owns(p) || Owns(Move(m, p, a).pc))
    requires InOrder(m, if Owns(p) then p else Idle)
    ensures var n := Move(m, p, a); InOrder(n.mem, if Owns(n.pc) then n.pc else Idle)
  {
    if p.Take? && m.queue.qlen != 0 {
      assert m.queue.list == [m.queue.list[0]] + m.queue.list[1..];
    } else if p.Cipher? {
      assert SealedByWork(m.history) + InHand(p) == SealedByWork(Move(m, p, a).mem.history) + [];
    } else {
      SameOrder(m, p, a);
      hide Move, InHand, QueuedIn, SealedByWork;
    }
  }

  lemma SameOrder(m: Shared, p: Pc, a: Act)
    requires Enabled(m, p, a) && (Owns(p) || Owns(Move(m, p, a).pc)) && !(p.Take? && m.queue.qlen != 0) && !p.Cipher?
    ensures var n := Move(m, p, a);
            && n.mem.queue == m.queue && InHand(if Owns(n.pc) then n.pc else Idle) == InHand(if Owns(p) then p else Idle)
            && QueuedIn(n.mem.history) == QueuedIn(m.history) && SealedByWork(n.mem.history) == SealedByWork(m.history)
  {
    hide Enqueue, Dequeue, EnqueueResult, Accepts;
  }

  lemma OwnerChains(m: Shared, p: Pc, a: Act, early: bool)
    requires Enabled(m, p, a) && (Owns(p) || Owns(Move(m, p, a).pc))
    requires (early ==> Early(p)) && (m.pending ==> m.inuse)
    requires IvOk(m, if Owns(p) then p else Idle) && Chained(m.history)
    requires Primed(m, if Owns(p) then p else Idle, early)
    ensures var n := Move(m, p, a); IvOk(n.mem, if Owns(n.pc) then n.pc else Idle) && Chained(n.mem.history)
  {
  }

  lemma OwnerPrimes(m: Shared, p: Pc, a: Act, early: bool)
    requires Enabled(m, p, a) && (Owns(p) || Owns(Move(m, p, a).pc))
    requires (early ==> Early(p)) && (m.pending ==> m.inuse)
    requires Primed(m, if Owns(p) then p else Idle, early)
    ensures var n := Move(m, p, a); Primed(n.mem, if Owns(n.pc) then n.pc else Idle, early && Early(n.pc))
  {
  }

  lemma ForeignPrimes(m: Shared, p: Pc, a: Act, early: bool, q: Pc)
    requires Enabled(m, p, a) && !Owns(p) && !Owns(Move(m, p, a).pc)
    requires (early ==> Early(p)) && (m.pending ==> m.inuse)
    requires Primed(m, q, early)
    ensures var n := Move(m, p, a); Primed(n.mem, q, early && Early(n.pc))
  {
  }

  // ---------- results ----------

  ghost predicate Settled(h: History, end: End, err: int) { Vouched(h, end) && (end.Reply? ==> err == end.mine) }

  /** The result a thread is going to report is its own. */
  ghost predicate Faithful(m: Shared, p: Pc) {
    match p
    case Retest(r, mine) => Vouched(m.history, Reply(r, mine, false))
    case Note(r, mine) => Vouched(m.history, Reply(r, mine, false))
    case Store(job, _) => Vouched(m.history, Reply(job.r, 0, true)) && m.err == 0
    case Read(end) => Settled(m.history, end, m.err)
    case Count(end, err) => Settled(m.history, end, err)
    case Clear(end, err) => Settled(m.history, end, err)
    case Recount(end, err) => Settled(m.history, end, err)
    case Reset(end, err) => Settled(m.history, end, err)
    case Schedule(end, err) => Settled(m.history, end, err)
    case Return(end, err) => Settled(m.history, end, err)
    case _ => true
  }

  lemma MoveFaithful(m: Shared, p: Pc, a: Act)
    requires Enabled(m, p, a) && Faithful(m, p) && Honest(m.history)
    ensures var n := Move(m, p, a); Faithful(n.mem, n.pc) && Honest(n.mem.history)
  {
  }

  /** Another thread's step leaves this thread's result alone. */
  lemma FaithfulKept(m: Shared, p: Pc, a: Act, q: Pc)
    requires Enabled(m, p, a) && Faithful(m, q)
    requires Owns(q) ==> !Owns(p)
    ensures Faithful(Move(m, p, a).mem, q)
  {
  }

  // ---------- every run ----------

  ghost predicate AllEarly(s: State) { forall i :: 0 <= i < |s.pcs| ==> Early(s.pcs[i]) }

  ghost predicate AllFaithful(s: State) { forall i :: 0 <= i < |s.pcs| ==> Faithful(s.mem, s.pcs[i]) }

  ghost predicate Inv(s: State, o: Holder) {
    && Held(s, o) && s.mem.queue.qlen == |s.mem.queue.list| && Attended(s)
    && Primed(s.mem, HolderPc(s, o), AllEarly(s)) && Owned(s.mem, HolderPc(s, o))
    && AllFaithful(s) && Honest(s.mem.history)
  }

  lemma PrimedWeakens(m: Shared, q: Pc, early: bool, late: bool)
    requires Primed(m, q, early) && (early ==> late)
    ensures Primed(m, q, late)
  {
  }

  lemma StepOwned(s: State, t: nat, a: Act, o: Holder)
    requires t < |s.pcs| && Enabled(s.mem, s.pcs[t], a) && Inv(s, o)
    ensures var s', o' := Step(s, t, a), HolderAfter(s, t, a, o);
            Owned(s'.mem, HolderPc(s', o')) && Primed(s'.mem, HolderPc(s', o'), AllEarly(s'))
  {
    var m, p, s', o' := s.mem, s.pcs[t], Step(s, t, a), HolderAfter(s, t, a, o);
    var early := AllEarly(s);
    assert Owns(p) <==> o == Thread(t);
    MovePasses(m, p, a);
    if Owns(p) || Owns(s'.pcs[t]) {
      OwnerStep(m, p, a, early);
      OwnerPrimes(m, p, a, early);
    } else {
      ForeignStep(m, p, a, HolderPc(s, o));
      ForeignPrimes(m, p, a, early, HolderPc(s, o));
    }
    assert early && Early(s'.pcs[t]) ==> AllEarly(s');
    hide Move, Owns, Owned, Primed;
    PrimedWeakens(s'.mem, HolderPc(s', o'), early && Early(s'.pcs[t]), AllEarly(s'));
  }

  lemma StepFaithful(s: State, t: nat, a: Act, o: Holder)
    requires t < |s.pcs| && Enabled(s.mem, s.pcs[t], a) && Inv(s, o)
    ensures var s' := Step(s, t, a); AllFaithful(s') && Honest(s'.mem.history)
  {
    var s' := Step(s, t, a);
    MoveFaithful(s.mem, s.pcs[t], a);
    assert Owns(s.pcs[t]) <==> o == Thread(t);
    forall i | 0 <= i < |s.pcs| ensures Faithful(s'.mem, s'.pcs[i]) {
      if i != t {
        assert Owns(s.pcs[i]) <==> o == Thread(i);
        FaithfulKept(s.mem, s.pcs[t], a, s.pcs[i]);
      }
    }
  }

  lemma StepKeeps(s: State, t: nat, a: Act, o: Holder)
    requires t < |s.pcs| && Enabled(s.mem, s.pcs[t], a) && Inv(s, o)
    ensures Inv(Step(s, t, a), HolderAfter(s, t, a, o))
  {
    StepHolds(s, t, a, o);
    StepAttends(s, t, a);
    StepOwned(s, t, a, o);
    StepFaithful(s, t, a, o);
    assert Owns(s.pcs[t]) <==> o == Thread(t);
    MovePasses(s.mem, s.pcs[t], a);
  }

  predicate Legal(s: State, run: seq<(nat, Act)>)
    decreases |run|
  {
    run == [] || (run[0].0 < |s.pcs| && Enabled(s.mem, s.pcs[run[0].0], run[0].1)
                  && Legal(Step(s, run[0].0, run[0].1), run[1..]))
  }

  function Run(s: State, run: seq<(nat, Act)>): State
    requires Legal(s, run)
    decreases |run|
  {
    if run == [] then s else Run(Step(s, run[0].0, run[0].1), run[1..])
  }

  lemma {:induction false} RunKeeps(s: State, run: seq<(nat, Act)>, o: Holder) returns (o': Holder)
    requires Inv(s, o) && Legal(s, run)
    ensures Inv(Run(s, run), o')
    decreases |run|
  {
    if run == [] {
      o' := o;
    } else {
      StepKeeps(s, run[0].0, run[0].1, o);
      o' := RunKeeps(Step(s, run[0].0, run[0].1), run[1..], HolderAfter(s, run[0].0, run[0].1, o));
    }
  }

  /** In every run of any number of threads: at most one thread is between taking the in-use bit
      and giving it up, none is while the work is pending, and scheduling the work never finds it
      already pending. */
  lemma OneOwner(n: nat, junk: Iv, run: seq<(nat, Act)>)
    requires Legal(Initial(n, junk), run)
    ensures var s := Run(Initial(n, junk), run);
            && !s.mem.bug
            && (forall i, j :: 0 <= i < |s.pcs| && 0 <= j < |s.pcs| && Owns(s.pcs[i]) && Owns(s.pcs[j]) ==> i == j)
            && (s.mem.pending ==> forall i :: 0 <= i < |s.pcs| ==> !Owns(s.pcs[i]))
  {
    var _ := RunKeeps(Initial(n, junk), run, Nobody);
  }

  /** The count of the queue is right after every run, so no possible step is ruled out. */
  lemma NothingBlocks(n: nat, junk: Iv, run: seq<(nat, Act)>, t: nat, a: Act)
    requires Legal(Initial(n, junk), run)
    requires var s := Run(Initial(n, junk), run); t < |s.pcs| && Possible(s.mem, s.pcs[t], a)
    ensures Legal(Run(Initial(n, junk), run), [(t, a)])
  {
    var _ := RunKeeps(Initial(n, junk), run, Nobody);
    assert Legal(Step(Run(Initial(n, junk), run), t, a), []);
  }

  /** In every run the encryptions form one chain: the IV is seeded once, before the first of
      them, and each reports and starts from the value its predecessor left. */
  lemma OneChain(n: nat, junk: Iv, run: seq<(nat, Act)>)
    requires Legal(Initial(n, junk), run)
    ensures Chained(Run(Initial(n, junk), run).mem.history)
  {
    var _ := RunKeeps(Initial(n, junk), run, Nobody);
  }

  /** In every run each thread reports the result of its own request. */
  lemma OwnResults(n: nat, junk: Iv, run: seq<(nat, Act)>)
    requires Legal(Initial(n, junk), run)
    ensures Honest(Run(Initial(n, junk), run).mem.history)
  {
    var _ := RunKeeps(Initial(n, junk), run, Nobody);
  }

  /** In every run the work encrypts postponed requests in the order they were queued; a queue
      with the bit clear has a thread on its way to the bit; and once all threads are idle and no
      work is pending, every postponed request has been encrypted. */
  lemma NobodyIsStranded(n: nat, junk: Iv, run: seq<(nat, Act)>)
    requires Legal(Initial(n, junk), run)
    ensures var s := Run(Initial(n, junk), run); var h := s.mem.history;
            && SealedByWork(h) <= QueuedIn(h)
            && Attended(s)
            && ((forall i :: 0 <= i < |s.pcs| ==> s.pcs[i] == Idle) && !s.mem.pending ==> SealedByWork(h) == QueuedIn(h))
  {
    var _ := RunKeeps(Initial(n, junk), run, Nobody);
  }
}
