/** The ordered-request protocol of the block layer: one request queue, the scheduler in
    front of its dispatch list, the driver behind it and the barrier sequence in between.

    A state is a value; every kernel entry point is a function from states to states and
    a run is a sequence of such steps.  Fields marked "history" are never read by the
    code: they record what has happened so that the ordering promise can be stated.     */
module BarrierModel {
  import opened Options

  /** The phases of a barrier sequence, in bit order of the ordseq mask. */
  datatype Phase = Started | Drain | Pre | Bar | Post | Done

  function Rank(p: Phase): nat {
    match p
    case Started => 0
    case Drain => 1
    case Pre => 2
    case Bar => 3
    case Post => 4
    case Done => 5
  }

  /** The three proxies are the requests embedded in the queue itself. */
  datatype Kind = Fs | Special | PreFlushRq | BarRq | PostFlushRq

  type Key = (Kind, nat)

  /** id: admission number, shared by a barrier and its proxies.
      epoch (history): how many barriers were admitted before it. */
  datatype Request = Request(
    id: nat, kind: Kind, write: bool, sector: int, sectors: nat,
    hard: bool, soft: bool, color: bool, started: bool, sorted: bool,
    epoch: nat)

  function KeyOf(r: Request): Key { (r.kind, r.id) }

  /** blk_fs_request: the barrier proxy is a file-system request, the flushes are not. */
  predicate IsFs(r: Request) { r.kind.Fs? || r.kind.BarRq? }

  predicate IsProxy(k: Kind) { k.PreFlushRq? || k.BarRq? || k.PostFlushRq? }

  /** A barrier still waiting for its sequence to begin. */
  predicate IsQueuedBarrier(r: Request) { r.kind.Fs? && r.hard }

  predicate IsEmptyBarrier(r: Request) { r.hard && IsFs(r) && r.sectors == 0 }

  function PhaseOf(k: Kind): Phase
    requires IsProxy(k)
  {
    if k.PreFlushRq? then Pre else if k.BarRq? then Bar else Post
  }

  /** What a request asks for: its direction and the sectors it covers. */
  datatype Range = Range(write: bool, sector: int, sectors: nat)

  function RangeOf(r: Request): Range { Range(r.write, r.sector, r.sectors) }

  datatype Event =
    | Admitted(id: nat, kind: Kind, hard: bool, range: Range)
    | Begun(id: nat, pre: bool, post: bool)
    | Issued(kind: Kind, id: nat, range: Range, shown: bool)   // shown to the driver, or ended on the spot
    | Ended(kind: Kind, id: nat, err: int)
    | Partial(err: int)

  /** What has happened, newest event outermost. */
  datatype History = Empty | Then(past: History, event: Event)

  datatype Mode = Unordered | Ordered(tag: bool, pre: bool, post: bool)

  datatype Where = Front | Back | Sort

  datatype Queue = Queue(
    mode: Mode,
    elv: set<Request>,        // held by the scheduler
    list: seq<Request>,       // queue_head
    driver: set<Request>,     // taken off the list, not yet ended
    inFlight: int,
    ordcolor: bool,
    ordseq: set<Phase>,
    orderr: int,
    orig: Option<Request>,
    endSector: int,
    boundary: Option<Key>,
    nextId: nat,
    bug: bool,                // a BUG_ON or a read of an absent list entry was hit
    warned: bool,             // a WARN_ON was hit
    base: nat,                // history: barriers whose sequence has begun
    pending: seq<Request>,    // history: the queued barriers, oldest first
    h: History)               // history

  predicate Active(q: Queue) { q.ordseq != {} }

  // ---------- blk-barrier.c ----------

  /** blk_ordered_cur_seq while a sequence is in progress: the lowest phase not yet set. */
  function CurSeq(s: set<Phase>): Phase {
    if Started !in s then Started
    else if Drain !in s then Drain
    else if Pre !in s then Pre
    else if Bar !in s then Bar
    else if Post !in s then Post
    else Done
  }

  /** blk_ordered_req_seq. */
  function ReqSeq(orig: Option<Request>, r: Request): Phase {
    if IsProxy(r.kind) then PhaseOf(r.kind)
    else if !IsFs(r) then Drain
    else if orig.Some? && r.color == orig.value.color then Drain
    else Done
  }

  function Log(q: Queue, e: Event): Queue { q.(h := Then(q.h, e)) }

  function FirstError(err: int, next: int): int { if next != 0 && err == 0 then next else err }

  /** blk_ordered_complete_seq; the last phase ends the original barrier. */
  function CompleteSeq(q: Queue, p: Phase, err: int): (q1: Queue)
    ensures q1.mode == q.mode
  {
    var q1 := q.(orderr := FirstError(q.orderr, err),
                 bug := q.bug || p in q.ordseq || q.orig.None?,
                 ordseq := q.ordseq + {p});
    if CurSeq(q1.ordseq) != Done || q.orig.None? then q1
    else Log(q1.(ordseq := {}), Ended(Fs, q.orig.value.id, q1.orderr))
  }

  function Flush(k: Kind, orig: Request): Request {
    Request(orig.id, k, false, -1, 0, true, true, false, false, false, orig.epoch)
  }

  function Proxy(orig: Request): Request {
    Request(orig.id, BarRq, orig.write, orig.sector, orig.sectors, true, true, false, false, false, orig.epoch)
  }

  predicate NeedsPost(m: Mode, orig: Request) { m.Ordered? && m.post && orig.sectors != 0 }

  /** The phases set from the outset because nothing has to be done for them. */
  function SkippedPhases(m: Mode, orig: Request, idle: bool): set<Phase>
    requires m.Ordered?
  {
    {Started}
    + (if NeedsPost(m, orig) then {} else {Post})
    + (if m.pre then {} else {Pre})
    + (if m.tag || idle then {Drain} else {})
  }

  function ProxyRun(m: Mode, orig: Request): seq<Request>
    requires m.Ordered?
  {
    (if m.pre then [Flush(PreFlushRq, orig)] else [])
    + [Proxy(orig)]
    + (if NeedsPost(m, orig) then [Flush(PostFlushRq, orig)] else [])
  }

  /** start_ordered, for the barrier at the head of the list. */
  function StartOrdered(q: Queue): (q1: Queue)
    requires q.list != [] && q.mode.Ordered?
    ensures q1.mode == q.mode
  {
    var orig := q.list[0];
    Log(q.(orderr := 0,
           ordseq := SkippedPhases(q.mode, orig, q.inFlight == 0),
           orig := Some(orig),
           list := ProxyRun(q.mode, orig) + q.list[1..],
           base := q.base + 1,
           pending := if q.pending == [] then [] else q.pending[1..]),
        Begun(orig.id, q.mode.pre, NeedsPost(q.mode, orig)))
  }

  /** A barrier on a queue that does not support ordering is dequeued and ended with
      -EOPNOTSUPP. */
  function Refuse(q: Queue): (q1: Queue)
    requires q.list != []
    ensures q1.mode == q.mode
  {
    Log(q.(list := q.list[1..], base := q.base + 1, pending := if q.pending == [] then [] else q.pending[1..]),
        Ended(Fs, q.list[0].id, -95))
  }

  // ---------- elevator.c ----------

  function Remove(s: seq<Request>, r: Request): seq<Request> {
    if s == [] then [] else if s[0] == r then s[1..] else [s[0]] + Remove(s[1..], r)
  }

  predicate Accounted(r: Request) { r.started && IsFs(r) }

  /** elv_dequeue_request by the driver. */
  function Dequeue(q: Queue, r: Request): Queue {
    q.(bug := q.bug || r !in q.list,
       list := Remove(q.list, r),
       driver := q.driver + {r},
       inFlight := if Accounted(r) then q.inFlight + 1 else q.inFlight)
  }

  predicate DrainIsOver(q: Queue) {
    && Active(q) && q.inFlight == 0 && CurSeq(q.ordseq) == Drain
    && q.list != [] && Rank(ReqSeq(q.orig, q.list[0])) > Rank(Drain)
  }

  /** Closing the drain phase.  The code inspects the first list entry without testing that
      there is one. */
  function DrainCheck(q: Queue): (q1: Queue)
    ensures q1.mode == q.mode
  {
    var q1 := q.(bug := q.bug || (Active(q) && q.inFlight == 0 && CurSeq(q.ordseq) == Drain && q.list == []));
    if DrainIsOver(q) then CompleteSeq(q1, Drain, 0) else q1
  }

  /** elv_completed_request. */
  function CompletedRequest(q: Queue, r: Request): (q1: Queue)
    ensures q1.mode == q.mode
  {
    DrainCheck(if Accounted(r) then q.(inFlight := q.inFlight - 1) else q)
  }

  /** end_that_request_last with its end_io callback: the request leaves the list if it is
      still there, the completion hooks run, and a proxy reports its phase. */
  function EndRequest(q: Queue, r: Request, err: int): (q1: Queue)
    ensures q1.mode == q.mode
  {
    var q1 := if r in q.list then Dequeue(q, r) else q;
    var q2 := Log(q1.(driver := q1.driver - {r}), Ended(r.kind, r.id, err));
    var q3 := CompletedRequest(q2, r);
    if IsProxy(r.kind) then CompleteSeq(q3, PhaseOf(r.kind), err) else q3
  }

  /** Does the backward walk of elv_dispatch_sort stop behind pos? */
  predicate StopsAt(rq: Request, pos: Request, limit: int) {
    || rq.write != pos.write
    || pos.soft || pos.hard || pos.started
    || (if rq.sector >= limit then pos.sector >= limit && rq.sector >= pos.sector
        else pos.sector >= limit || rq.sector >= pos.sector)
  }

  /** The index at which elv_dispatch_sort puts rq. */
  function SortPos(list: seq<Request>, rq: Request, limit: int): (p: nat)
    ensures p <= |list|
    ensures forall i :: p <= i < |list| ==> !StopsAt(rq, list[i], limit)
    ensures p > 0 ==> StopsAt(rq, list[p - 1], limit)
  {
    if list == [] || StopsAt(rq, list[|list| - 1], limit) then |list|
    else SortPos(list[..|list| - 1], rq, limit)
  }

  function InsertAt(s: seq<Request>, p: nat, r: Request): seq<Request>
    requires p <= |s|
  {
    s[..p] + [r] + s[p..]
  }

  function EndSector(r: Request): int { r.sector + r.sectors }

  function DispatchSort(q: Queue, r: Request): Queue {
    q.(elv := q.elv - {r}, list := InsertAt(q.list, SortPos(q.list, r, q.endSector), r))
  }

  function DispatchTail(q: Queue, r: Request): Queue {
    q.(elv := q.elv - {r}, list := q.list + [r], endSector := EndSector(r), boundary := Some(KeyOf(r)))
  }

  /** The index at which a requeued request is put while a sequence is in progress. */
  function RequeuePos(list: seq<Request>, orig: Option<Request>, p: Phase): (i: nat)
    ensures i <= |list|
    ensures forall j :: 0 <= j < i ==> Rank(ReqSeq(orig, list[j])) < Rank(p)
    ensures i < |list| ==> Rank(p) <= Rank(ReqSeq(orig, list[i]))
  {
    if list == [] || Rank(p) <= Rank(ReqSeq(orig, list[0])) then 0
    else 1 + RequeuePos(list[1..], orig, p)
  }

  function Requeued(r: Request): Request { r.(started := false, soft := true) }

  /** elv_requeue_request. */
  function Requeue(q: Queue, r: Request): Queue {
    var r1 := Requeued(r);
    var p := if Active(q) then RequeuePos(q.list, q.orig, ReqSeq(q.orig, r1)) else 0;
    q.(driver := q.driver - {r},
       inFlight := if Accounted(r) then q.inFlight - 1 else q.inFlight,
       list := InsertAt(q.list, p, r1))
  }

  /** What the submitter chooses about a new request. */
  datatype Spec = Spec(kind: Kind, write: bool, sector: int, sectors: nat, hard: bool, soft: bool,
                       elvpriv: bool, at: Where)

  function AskedBy(s: Spec): Range { Range(s.write, s.sector, s.sectors) }

  function EffectiveWhere(s: Spec): Where {
    if s.at.Sort? && (s.soft || s.hard || !s.elvpriv) then Back else s.at
  }

  function NewRequest(q: Queue, s: Spec): Request {
    Request(q.nextId, s.kind, s.write, s.sector, s.sectors, s.hard, s.soft || !EffectiveWhere(s).Sort?,
            q.ordcolor, false, EffectiveWhere(s).Sort?, |Barriers(q.h)|)
  }

  /** __elv_add_request followed by elv_insert.  A back insertion is preceded by a forced
      drain of the scheduler, so it happens with the scheduler empty. */
  function Admit(q: Queue, s: Spec): Queue {
    var r := NewRequest(q, s);
    var isBoundary := (s.soft || s.hard) && IsFs(r);
    q.(nextId := q.nextId + 1,
       ordcolor := q.ordcolor != s.hard,
       endSector := if isBoundary then EndSector(r) else q.endSector,
       boundary := if isBoundary then Some(KeyOf(r)) else q.boundary,
       elv := if EffectiveWhere(s).Sort? then q.elv + {r} else q.elv,
       list := match EffectiveWhere(s)
               case Front => InsertAt(q.list, 0, r)
               case Back => InsertAt(q.list, |q.list|, r)
               case Sort => q.list,
       pending := if s.hard then q.pending + [r] else q.pending,
       h := Then(q.h, Admitted(r.id, r.kind, r.hard, RangeOf(r))))
  }

  datatype Verdict = Pass | Hold | Refused

  /** blk_do_ordered on a non-empty list; when the verdict is Pass, the request let through
      is the head of the resulting list. */
  function DoOrdered(q: Queue): (o: (Queue, Verdict))
    requires q.list != []
    ensures o.0.mode == q.mode
  {
    var rq := q.list[0];
    var isBarrier := IsFs(rq) && rq.hard;
    if !Active(q) then
      if !isBarrier then (q, Pass)
      else if q.mode.Ordered? then
        (StartOrdered(q), if q.mode.tag || q.inFlight == 0 then Pass else Hold)
      else
        (Refuse(q), Refused)
    else if !IsFs(rq) && !rq.kind.PreFlushRq? && !rq.kind.PostFlushRq? then (q, Pass)
    else if q.mode.Ordered? && q.mode.tag then
      (q, if isBarrier && !rq.kind.BarRq? then Hold else Pass)
    else
      (q.(warned := q.warned || Rank(ReqSeq(q.orig, rq)) < Rank(CurSeq(q.ordseq))),
       if Rank(ReqSeq(q.orig, rq)) > Rank(CurSeq(q.ordseq)) then Hold else Pass)
  }

  /** prep_rq_fn's answer. */
  datatype Prep = Ok | Defer | Kill

  function MarkStarted(q: Queue): (q1: Queue)
    requires q.list != []
    ensures q1.mode == q.mode
  {
    var r := q.list[0];
    var q1 := q.(list := [r.(started := true)] + q.list[1..]);
    if q.boundary.None? || q.boundary == Some(KeyOf(r))
    then q1.(endSector := EndSector(r), boundary := None) else q1
  }

  function IssueOf(r: Request): Event { Issued(r.kind, r.id, RangeOf(r), !IsEmptyBarrier(r)) }

  /** What elv_next_request does with the head of the list once ordering has let it
      through: the placeholder of an empty barrier is ended on the spot. */
  function Offer(q: Queue, prep: Prep): (q1: Queue)
    requires q.list != []
    ensures q1.mode == q.mode
  {
    var rq := q.list[0];
    var q1 := Log(q, IssueOf(rq));
    if IsEmptyBarrier(rq) then EndRequest(q1, rq, 0)
    else
      var q2 := MarkStarted(q1);
      if prep.Kill? then EndRequest(q2, q2.list[0], -5) else q2
  }

  function Poll(q: Queue, prep: Prep): (q1: Queue)
    requires q.list != []
    ensures q1.mode == q.mode
  {
    var (q1, v) := DoOrdered(q);
    if v == Pass && q1.list != [] then Offer(q1, prep) else q1
  }

  /** req_bio_endio on the barrier proxy: bytes fail before the proxy itself ends. */
  function PartialError(q: Queue, err: int): Queue {
    Log(q.(orderr := FirstError(q.orderr, err)), Partial(err))
  }

  // ---------- runs ----------

  datatype Op =
    | OpAdmit(spec: Spec)
    | OpDispatch(rq: Request, atTail: bool)
    | OpPoll(prep: Prep)
    | OpDequeue(rq: Request)
    | OpRequeue(rq: Request)
    | OpEnd(rq: Request, err: int)
    | OpPartial(rq: Request, err: int)

  /** What the submitter, the scheduler and the driver may do: no file-system request goes
      to the front, only file-system requests are barriers, only they are sorted; the
      scheduler dispatches what it holds; the driver takes off, ends and requeues only
      requests it has been shown. */
  predicate Enabled(q: Queue, op: Op) {
    match op
    case OpAdmit(s) =>
      && (s.kind.Fs? || s.kind.Special?)
      && (s.kind.Fs? ==> !s.at.Front?)
      && (s.hard ==> s.kind.Fs?)
      && (EffectiveWhere(s).Sort? ==> s.kind.Fs?)
      && (EffectiveWhere(s).Back? ==> q.elv == {})
    case OpDispatch(r, _) => r in q.elv
    case OpPoll(_) => q.list != []
    case OpDequeue(r) => r in q.list && r.started
    case OpRequeue(r) => r in q.driver
    case OpEnd(r, _) => r in q.driver || (r in q.list && r.started)
    case OpPartial(r, _) => r.kind.BarRq? && (r in q.driver || (r in q.list && r.started))
  }

  function Step(q: Queue, op: Op): (q1: Queue)
    requires Enabled(q, op)
    ensures q1.mode == q.mode
  {
    match op
    case OpAdmit(s) => Admit(q, s)
    case OpDispatch(r, atTail) => if atTail then DispatchTail(q, r) else DispatchSort(q, r)
    case OpPoll(prep) => Poll(q, prep)
    case OpDequeue(r) => Dequeue(q, r)
    case OpRequeue(r) => Requeue(q, r)
    case OpEnd(r, err) => EndRequest(q, r, err)
    case OpPartial(_, err) => PartialError(q, err)
  }

  function Initial(m: Mode): Queue {
    Queue(m, {}, [], {}, 0, false, {}, 0, None, 0, None, 0, false, false, 0, [], Empty)
  }

  /** Every op of the run is enabled in the state the earlier ones lead to. */
  predicate Legal(q: Queue, ops: seq<Op>)
    decreases |ops|
  {
    ops == [] || (Enabled(q, ops[0]) && Legal(Step(q, ops[0]), ops[1..]))
  }

  function Run(q: Queue, ops: seq<Op>): Queue
    requires Legal(q, ops)
    decreases |ops|
  {
    if ops == [] then q else Run(Step(q, ops[0]), ops[1..])
  }

  // ---------- reading a history ----------

  function EndedKeys(h: History): set<Key> {
    match h
    case Empty => {}
    case Then(past, e) => EndedKeys(past) + (if e.Ended? then {(e.kind, e.id)} else {})
  }

  function AdmittedFs(h: History): set<nat> {
    match h
    case Empty => {}
    case Then(past, e) => AdmittedFs(past) + (if e.Admitted? && e.kind.Fs? then {e.id} else {})
  }

  /** The ids of the barriers, in order of admission. */
  function Barriers(h: History): seq<nat> {
    match h
    case Empty => []
    case Then(past, e) => Barriers(past) + (if e.Admitted? && e.hard then [e.id] else [])
  }

  /** The barriers whose sequence has begun, each with whether it has a pre-flush and a
      post-flush. */
  function Sequences(h: History): map<nat, (bool, bool)> {
    match h
    case Empty => map[]
    case Then(past, e) => if e.Begun? then Sequences(past)[e.id := (e.pre, e.post)] else Sequences(past)
  }

  /** The first error reported by a phase since the current sequence began. */
  function SequenceError(h: History): int {
    match h
    case Empty => 0
    case Then(past, e) =>
      match e
      case Begun(_, _, _) => 0
      case Ended(k, _, err) => if IsProxy(k) then FirstError(SequenceError(past), err) else SequenceError(past)
      case Partial(err) => FirstError(SequenceError(past), err)
      case Admitted(_, _, _, _) => SequenceError(past)
      case Issued(_, _, _, _) => SequenceError(past)
  }
}
