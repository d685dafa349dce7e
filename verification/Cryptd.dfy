/** The cryptd daemon (crypto/cryptd.c): any number of submitters share the queue with one
    worker thread, which takes one request a round, tells the next backlogged request that it
    is now in the queue proper, completes the request it took, and sleeps when it took none.

    Regions under the queue's lock are single steps; all others interleave freely.          */
module Cryptd {
  import opened Options
  import opened CryptoQueues

  datatype Event = Accepted(request: Request, backlogged: bool)
                 | Refused(refused: Request)
                 | Notified(waiting: Request)
                 | Done(finished: Request)

  datatype History = Empty | Then(past: History, event: Event)

  /** Where the worker is in its loop. */
  datatype Worker = Top                                                      // about to mark itself sleeping
                  | Take                                                     // about to take a request
                  | Took(taken: Option<Request>, backlog: Option<Request>)   // queue lock released
                  | Notify(request: Request, waiting: Option<Request>)
                  | Finish(last: Request)
                  | Sleep                                                    // in schedule()

  /** A submitter that has released the lock still has to wake the worker. */
  datatype Submitter = Idle | Waking

  datatype State = State(queue: Queue, worker: Worker, running: bool, submitters: seq<Submitter>, history: History)

  datatype Op = Submit(who: nat, r: Request) | Wake(whom: nat) | Work

  function Initial(maxQlen: nat, n: nat): State {
    State(Init(maxQlen), Top, true, seq(n, i => Idle), Empty)
  }

  function Submitted(h: History): set<nat> {
    match h
    case Empty => {}
    case Then(p, Accepted(r, _)) => Submitted(p) + {r.id}
    case Then(p, Refused(r)) => Submitted(p) + {r.id}
    case Then(p, _) => Submitted(p)
  }

  /** Every submission carries a fresh identity; a completed request may be submitted again under another. */
  predicate Enabled(s: State, op: Op) {
    match op
    case Submit(i, r) => i < |s.submitters| && s.submitters[i] == Idle && r.id !in Submitted(s.history)
    case Wake(i) => i < |s.submitters| && s.submitters[i] == Waking
    case Work => s.worker == Sleep ==> s.running
  }

  function Step(s: State, op: Op): State
    requires Enabled(s, op) && s.queue.qlen == |s.queue.list|
  {
    match op
    case Submit(i, r) =>
      var e := if Accepts(s.queue, r) then Accepted(r, Backlogs(s.queue)) else Refused(r);
      s.(queue := Enqueue(s.queue, r), submitters := s.submitters[i := Waking], history := Then(s.history, e))
    case Wake(i) => s.(running := true, submitters := s.submitters[i := Idle])
    case Work =>
      match s.worker
      case Top => s.(running := false, worker := Take)
      case Take =>
        var taken := if s.queue.qlen == 0 then None else Some(s.queue.list[0]);
        s.(queue := Dequeue(s.queue), worker := Took(taken, s.queue.backlog))
      case Took(None, _) => s.(worker := Sleep)
      case Took(Some(r), b) => s.(running := true, worker := Notify(r, b))
      case Notify(r, None) => s.(worker := Finish(r))
      case Notify(r, Some(b)) => s.(worker := Finish(r), history := Then(s.history, Notified(b)))
      case Finish(r) => s.(worker := Sleep, history := Then(s.history, Done(r)))
      case Sleep => s.(worker := Top)
  }

  // ---------- what the history says ----------

  function AcceptedIn(h: History): seq<Request> {
    match h
    case Empty => []
    case Then(p, Accepted(r, _)) => AcceptedIn(p) + [r]
    case Then(p, _) => AcceptedIn(p)
  }

  /** The accepted requests whose submitter was told EBUSY. */
  function BackloggedIn(h: History): seq<Request> {
    match h
    case Empty => []
    case Then(p, Accepted(r, true)) => BackloggedIn(p) + [r]
    case Then(p, _) => BackloggedIn(p)
  }

  function NotifiedIn(h: History): seq<Request> {
    match h
    case Empty => []
    case Then(p, Notified(r)) => NotifiedIn(p) + [r]
    case Then(p, _) => NotifiedIn(p)
  }

  function DoneIn(h: History): seq<Request> {
    match h
    case Empty => []
    case Then(p, Done(r)) => DoneIn(p) + [r]
    case Then(p, _) => DoneIn(p)
  }

  /** At every completion of a backlogged request its notification is already out. */
  ghost predicate NotifiedFirst(h: History) {
    match h
    case Empty => true
    case Then(p, Done(r)) => NotifiedFirst(p) && (r in BackloggedIn(p) ==> r in NotifiedIn(p))
    case Then(p, _) => NotifiedFirst(p)
  }

  // ---------- the invariant ----------

  function Beyond(q: Queue): seq<Request> { if |q.list| > q.maxQlen then q.list[q.maxQlen..] else [] }

  /** The request taken from the queue and not yet completed. */
  function InHand(w: Worker): seq<Request> {
    match w
    case Took(Some(r), _) => [r]
    case Notify(r, _) => [r]
    case Finish(r) => [r]
    case _ => []
  }

  /** The backlogged request that entered the queue proper and has not been told. */
  function Owed(w: Worker): seq<Request> {
    match w
    case Took(Some(_), Some(b)) => [b]
    case Notify(_, Some(b)) => [b]
    case _ => []
  }

  /** Completed, in hand, queued: in this order, all that was ever accepted. */
  ghost predicate Conserved(s: State) {
    && AcceptedIn(s.history) == DoneIn(s.history) + InHand(s.worker) + s.queue.list
    && BackloggedIn(s.history) == NotifiedIn(s.history) + Owed(s.worker) + Beyond(s.queue)
  }

  ghost predicate Identities(s: State) {
    && Distinct(AcceptedIn(s.history))
    && (forall r :: r in AcceptedIn(s.history) ==> r.id in Submitted(s.history))
    && (forall r :: r in BackloggedIn(s.history) ==> r in AcceptedIn(s.history))
  }

  /** A request in the queue has a worker that will look at it, or a submitter about to wake one. */
  ghost predicate Attended(s: State) {
    s.queue.list != [] ==>
      || s.running || s.worker.Top? || s.worker.Take?
      || (s.worker.Took? && s.worker.taken != None)
      || exists i :: 0 <= i < |s.submitters| && s.submitters[i] == Waking
  }

  ghost predicate Inv(s: State) {
    && WellFormed(s.queue) && Conserved(s) && Identities(s) && Attended(s)
    && NotifiedFirst(s.history)
    && (s.worker.Notify? || s.worker.Finish? ==> s.running)
    && (s.worker.Took? && s.worker.taken == None ==> s.worker.backlog == None)
  }

  lemma SubmitConserves(s: State, i: nat, r: Request)
    requires WellFormed(s.queue) && Conserved(s) && Enabled(s, Submit(i, r))
    ensures Conserved(Step(s, Submit(i, r)))
  {
    hide Distinct, Submitted, InHand, Owed;
    var t := Step(s, Submit(i, r));
    if Accepts(s.queue, r) {
      assert t.queue.list == s.queue.list + [r];
      assert AcceptedIn(t.history) == DoneIn(t.history) + InHand(t.worker) + t.queue.list;
      if Backlogs(s.queue) {
        assert Beyond(t.queue) == Beyond(s.queue) + [r];
      } else {
        assert Beyond(t.queue) == Beyond(s.queue);
      }
    }
  }

  lemma SubmitKeeps(s: State, i: nat, r: Request)
    requires Inv(s) && Enabled(s, Submit(i, r))
    ensures Inv(Step(s, Submit(i, r)))
  {
    SubmitConserves(s, i, r);
    SubmitIdentifies(s, i, r);
    assert forall x :: x in s.queue.list ==> x in AcceptedIn(s.history);
    EnqueueKeeps(s.queue, r);
    hide Conserved, Identities, WellFormed, Enqueue, AcceptedIn, BackloggedIn, DoneIn, NotifiedIn;
    assert Step(s, Submit(i, r)).submitters[i] == Waking;
  }

  lemma SubmitIdentifies(s: State, i: nat, r: Request)
    requires Identities(s) && s.queue.qlen == |s.queue.list| && Enabled(s, Submit(i, r))
    ensures Identities(Step(s, Submit(i, r)))
  {
    hide Enqueue;
    var a, t := AcceptedIn(s.history), Step(s, Submit(i, r));
    assert forall k :: 0 <= k < |a| ==> a[k] in a;
    assert AcceptedIn(t.history) == if Accepts(s.queue, r) then a + [r] else a;
  }

  /** Taking the head moves exactly the backlog pointer's request out of the region beyond the limit. */
  lemma TakeMoves(q: Queue)
    requires WellFormed(q) && q.list != []
    ensures Dequeue(q).list == q.list[1..]
    ensures Beyond(q) == (if q.backlog.Some? then [q.backlog.value] else []) + Beyond(Dequeue(q))
  {
  }

  lemma Handing(all: seq<Request>, done: seq<Request>, front: seq<Request>, rest: seq<Request>)
    requires all == done + [] + (front + rest)
    ensures all == done + front + rest
  {
  }

  lemma TakeConserves(s: State)
    requires WellFormed(s.queue) && Conserved(s) && s.worker == Take
    ensures Conserved(Step(s, Work))
  {
    var t, h := Step(s, Work), s.history;
    if s.queue.list != [] {
      TakeMoves(s.queue);
      hide WellFormed, Dequeue, Beyond;
      assert s.queue.list == InHand(t.worker) + t.queue.list;
      Handing(AcceptedIn(h), DoneIn(h), InHand(t.worker), t.queue.list);
      Handing(BackloggedIn(h), NotifiedIn(h), Owed(t.worker), Beyond(t.queue));
    }
  }

  lemma TakeKeeps(s: State)
    requires Inv(s) && s.worker == Take
    ensures Inv(Step(s, Work))
  {
    TakeConserves(s);
    DequeueKeeps(s.queue);
    hide Conserved, Distinct, AcceptedIn, BackloggedIn, Submitted, NotifiedFirst;
  }

  lemma NotifyKeeps(s: State)
    requires Inv(s) && s.worker.Notify?
    ensures Inv(Step(s, Work))
  {
    var t := Step(s, Work);
    if s.worker.waiting != None {
      assert NotifiedIn(t.history) == NotifiedIn(s.history) + Owed(s.worker);
    }
  }

  /** The request in hand is ahead of everything beyond the limit. */
  lemma FinishKeeps(s: State)
    requires Inv(s) && s.worker.Finish?
    ensures Inv(Step(s, Work))
  {
    var r, h, t := s.worker.last, s.history, Step(s, Work);
    assert DoneIn(t.history) == DoneIn(h) + [r];
    InHandIsNotQueued(DoneIn(h), r, s.queue.list);
  }

  lemma InHandIsNotQueued(done: seq<Request>, r: Request, list: seq<Request>)
    requires Distinct(done + [r] + list)
    ensures r !in list
  {
    var all := done + [r] + list;
    assert all[|done|] == r;
    assert forall i :: 0 <= i < |list| ==> all[|done| + 1 + i] == list[i];
  }

  lemma StepKeeps(s: State, op: Op)
    requires Inv(s) && Enabled(s, op)
    ensures Inv(Step(s, op))
  {
    match op {
      case Submit(i, r) => SubmitKeeps(s, i, r);
      case Wake(i) =>
      case Work =>
        match s.worker {
          case Take => TakeKeeps(s);
          case Notify(_, _) => NotifyKeeps(s);
          case Finish(_) => FinishKeeps(s);
          case _ =>
        }
    }
  }

  // ---------- runs ----------

  predicate Legal(s: State, ops: seq<Op>)
    decreases |ops|
  {
    ops == [] || (Enabled(s, ops[0]) && s.queue.qlen == |s.queue.list| && Legal(Step(s, ops[0]), ops[1..]))
  }

  function Run(s: State, ops: seq<Op>): State
    requires Legal(s, ops)
    decreases |ops|
  {
    if ops == [] then s else Run(Step(s, ops[0]), ops[1..])
  }

  lemma {:induction false} RunKeeps(s: State, ops: seq<Op>)
    requires Inv(s) && Legal(s, ops)
    ensures Inv(Run(s, ops))
    decreases |ops|
  {
    if ops != [] {
      StepKeeps(s, ops[0]);
      RunKeeps(Step(s, ops[0]), ops[1..]);
    }
  }

  /** In every run, under every interleaving and for every queue limit: requests complete in the
      order they were accepted; those told EBUSY are notified, once each, in the order they were
      accepted and before they complete; nobody else is notified. */
  lemma EveryBackloggedRequestIsNotifiedOnce(maxQlen: nat, n: nat, ops: seq<Op>)
    requires Legal(Initial(maxQlen, n), ops)
    ensures var s := Run(Initial(maxQlen, n), ops); var h := s.history;
            && Distinct(AcceptedIn(h))
            && DoneIn(h) <= AcceptedIn(h)
            && NotifiedIn(h) <= BackloggedIn(h) && Distinct(BackloggedIn(h))
            && NotifiedFirst(h)
            && s.queue.qlen == |s.queue.list|
  {
    RunKeeps(Initial(maxQlen, n), ops);
    BackloggedOnce(Run(Initial(maxQlen, n), ops).history);
  }

  lemma {:induction false} BackloggedOnce(h: History)
    requires Distinct(AcceptedIn(h))
    ensures Distinct(BackloggedIn(h)) && forall r :: r in BackloggedIn(h) ==> r in AcceptedIn(h)
  {
    if h.Then? {
      var a, b := AcceptedIn(h.past), BackloggedIn(h.past);
      assert a <= AcceptedIn(h);
      BackloggedOnce(h.past);
      if h.event.Accepted? {
        assert forall i :: 0 <= i < |a| ==> a[i].id != h.event.request.id by { assert AcceptedIn(h)[|a|] == h.event.request; }
        assert forall i :: 0 <= i < |b| ==> b[i] in a;
      }
    }
  }

  /** When the worker sleeps and no submitter is on its way to wake it, nothing is left behind. */
  lemma NothingIsForgotten(maxQlen: nat, n: nat, ops: seq<Op>)
    requires Legal(Initial(maxQlen, n), ops)
    ensures var s := Run(Initial(maxQlen, n), ops);
            s.worker == Sleep && !s.running && Waking !in s.submitters ==>
              DoneIn(s.history) == AcceptedIn(s.history) && NotifiedIn(s.history) == BackloggedIn(s.history)
  {
    RunKeeps(Initial(maxQlen, n), ops);
  }

  // ---------- no livelock ----------

  /** How much the worker can still do without another request, awake or not. */
  function Effort(w: Worker, running: bool): nat {
    var awake := if running then 9 else 0;
    match w
    case Sleep => awake
    case Top => 8
    case Take => 3 + awake
    case Took(r, _) => if r == None then 2 + awake else 12
    case Notify(_, _) => 11
    case Finish(_) => 10
  }

  function Wakers(submitters: seq<Submitter>): nat {
    if submitters == [] then 0 else (if submitters[0] == Waking then 1 else 0) + Wakers(submitters[1..])
  }

  lemma {:induction false} WakersUpdate(submitters: seq<Submitter>, i: nat)
    requires i < |submitters| && submitters[i] == Waking
    ensures Wakers(submitters[i := Idle]) == Wakers(submitters) - 1
    decreases |submitters|
  {
    if i > 0 {
      assert submitters[i := Idle][1..] == submitters[1..][i - 1 := Idle];
      WakersUpdate(submitters[1..], i - 1);
    } else {
      assert submitters[i := Idle][1..] == submitters[1..];
    }
  }

  /** How many steps can follow without a new request. */
  function Left(s: State): nat { 10 * |s.queue.list| + 10 * Wakers(s.submitters) + Effort(s.worker, s.running) }

  lemma StepCosts(s: State, op: Op)
    requires Enabled(s, op) && s.queue.qlen == |s.queue.list| && !op.Submit?
    ensures Left(Step(s, op)) < Left(s)
  {
    if op.Wake? { WakersUpdate(s.submitters, op.whom); }
  }

  /** However submitters and worker interleave: without new requests a run has at most this many steps, so
      the worker goes to sleep, and stays asleep until it is woken. */
  lemma {:induction false} NoLivelock(s: State, ops: seq<Op>)
    requires Legal(s, ops) && forall i :: 0 <= i < |ops| ==> !ops[i].Submit?
    ensures |ops| <= Left(s)
    decreases |ops|
  {
    if ops != [] {
      StepCosts(s, ops[0]);
      hide Left, Step;
      NoLivelock(Step(s, ops[0]), ops[1..]);
    }
  }
}
