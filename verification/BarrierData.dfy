/** What a barrier asks for is what its sequence carries out: over every run and in every mode, the
    proxy has the direction and the sectors of the barrier admitted under its number, and a
    barrier with data that succeeds has had them started by the driver.                      */
module BarrierData {
  import opened Options
  import opened BarrierModel
  import opened BarrierPhases
  import opened BarrierMoves
  import opened BarrierPhaseProof
  import opened BarrierOrder
  import opened BarrierOrderProof
  import BarrierTheorems

  const EOPNOTSUPP := 95

  // ---------- what is promised about the events ----------

  /** What each file-system request asked for when it was admitted. */
  function Asked(h: History): map<nat, Range> {
    match h
    case Empty => map[]
    case Then(past, e) => if e.Admitted? && e.kind.Fs? then Asked(past)[e.id := e.range] else Asked(past)
  }

  /** The barrier proxies that reached the driver, with what they covered. */
  function Shown(h: History): set<(nat, Range)> {
    match h
    case Empty => {}
    case Then(past, e) => Shown(past) + (if e.Issued? && e.kind.BarRq? && e.shown then {(e.id, e.range)} else {})
  }

  /** The proxy of barrier id has been started with exactly what was asked for, or nothing was. */
  predicate Carried(h: History, id: nat) {
    id in Asked(h) && (Asked(h)[id].sectors == 0 || (id, Asked(h)[id]) in Shown(h))
  }

  predicate EventOk(m: Mode, past: History, e: Event) {
    match e
    case Admitted(id, _, _, _) => id !in Asked(past)
    case Begun(id, pre, post) => id in Asked(past) && m.Ordered? && pre == m.pre && post == (m.post && Asked(past)[id].sectors != 0)
    case Issued(k, id, range, _) => k.Fs? || k.BarRq? ==> id in Asked(past) && range == Asked(past)[id]
    case Ended(k, id, err) => (k.BarRq? ==> Carried(past, id)) && (m.Unordered? && k.Fs? && id in Barriers(past) ==> err == -EOPNOTSUPP)
    case Partial(_) => true
  }

  predicate EventsOk(m: Mode, h: History) {
    match h
    case Empty => true
    case Then(past, e) => EventsOk(m, past) && EventOk(m, past, e)
  }

  // ---------- the invariant ----------

  predicate Faithful(asked: map<nat, Range>, r: Request) { IsFs(r) ==> r.id in asked && RangeOf(r) == asked[r.id] }

  ghost predicate Members(q: Queue, asked: map<nat, Range>, shown: set<(nat, Range)>) {
    && (forall r :: Held(q, r) ==> Faithful(asked, r))
    && (forall r :: Live(q, r) && r.kind.BarRq? ==> (r.id, RangeOf(r)) in shown)
  }

  ghost predicate DataInv(q: Queue) {
    && (forall id :: id in Asked(q.h) ==> id < q.nextId)
    && Members(q, Asked(q.h), Shown(q.h))
    && EventsOk(q.mode, q.h)
  }

  /** Nobody new, apart from requests that ask for what was admitted. */
  lemma FewerMembers(q: Queue, q1: Queue, asked: map<nat, Range>, shown: set<(nat, Range)>, shown1: set<(nat, Range)>)
    requires Members(q, asked, shown) && shown <= shown1
    requires forall r :: Held(q1, r) ==> Held(q, r) || Faithful(asked, r)
    requires forall r :: Live(q1, r) && r.kind.BarRq? ==> Live(q, r) || (r.id, RangeOf(r)) in shown1
    ensures Members(q1, asked, shown1)
  {
  }

  lemma CompleteData(q: Queue, p: Phase, err: int)
    requires DataInv(q) && (Active(q) || p != Drain ==> q.mode.Ordered?) && (p == Drain ==> Active(q))
    ensures DataInv(CompleteSeq(q, p, err))
  {
    var q1 := CompleteSeq(q, p, err);
    assert Asked(q1.h) == Asked(q.h) && Shown(q1.h) == Shown(q.h);
    FewerMembers(q, q1, Asked(q.h), Shown(q.h), Shown(q.h));
  }

  lemma DrainCheckData(q: Queue)
    requires DataInv(q) && (Active(q) ==> q.mode.Ordered?)
    ensures DataInv(DrainCheck(q))
  {
    hide CompleteSeq;
    if DrainIsOver(q) {
      var b := Active(q) && q.inFlight == 0 && CurSeq(q.ordseq) == Drain && q.list == [];
      var q2 := q.(bug := q.bug || b);
      FewerMembers(q, q2, Asked(q.h), Shown(q.h), Shown(q.h));
      CompleteData(q2, Drain, 0);
    } else {
      FewerMembers(q, DrainCheck(q), Asked(q.h), Shown(q.h), Shown(q.h));
    }
  }

  /** A proxy is outstanding, or a sequence in progress, only in an ordered mode; and a request shown to
      the driver is a barrier only as a proxy. */
  lemma OrderedFacts(q: Queue, r: Request)
    requires PhaseInv(q) && (r in q.list || r in q.driver)
    ensures (IsProxy(r.kind) ==> q.mode.Ordered? && Active(q)) && (Active(q) ==> q.mode.Ordered?)
    ensures r.kind.Fs? && !IsQueuedBarrier(r) ==> r.id !in Barriers(q.h)
  {
    KeyIsListed(q, r);
    assert Held(q, r);
    hide Unique, Counted, EndsAreDue, Keys;
  }

  /** end_that_request_last on a request that was shown, or that has nothing to carry out. */
  lemma EndData(q: Queue, r: Request, err: int)
    requires PhaseInv(q) && DataInv(q) && (r in q.list || r in q.driver) && !IsQueuedBarrier(r)
    requires r.kind.BarRq? ==> r.sectors == 0 || (r.id, RangeOf(r)) in Shown(q.h)
    ensures DataInv(EndRequest(q, r, err))
  {
    OrderedFacts(q, r);
    EndedData(q, r, err);
    DequeueFields(q, r);
    hide PhaseInv, CompleteSeq, CompletedRequest, DataInv, Dequeue;
    var q1 := if r in q.list then Dequeue(q, r) else q;
    ClosingData(Log(q1.(driver := q1.driver - {r}), Ended(r.kind, r.id, err)), r, err);
  }

  /** The completion hooks, and the phase a proxy reports. */
  lemma ClosingData(q: Queue, r: Request, err: int)
    requires DataInv(q) && (IsProxy(r.kind) || Active(q) ==> q.mode.Ordered?)
    ensures DataInv(CompletedRequest(q, r))
    ensures IsProxy(r.kind) ==> DataInv(CompleteSeq(CompletedRequest(q, r), PhaseOf(r.kind), err))
  {
    Recounted(q, r);
    hide DataInv, DrainCheck, CompleteSeq;
    DrainCheckData(if Accounted(r) then q.(inFlight := q.inFlight - 1) else q);
    if IsProxy(r.kind) { CompleteData(CompletedRequest(q, r), PhaseOf(r.kind), err); }
  }

  /** The request is off, and its end is on record. */
  lemma EndedData(q: Queue, r: Request, err: int)
    requires PhaseInv(q) && DataInv(q) && (r in q.list || r in q.driver) && !IsQueuedBarrier(r)
    requires r.kind.BarRq? ==> r.sectors == 0 || (r.id, RangeOf(r)) in Shown(q.h)
    ensures var q1 := if r in q.list then Dequeue(q, r) else q;
            DataInv(Log(q1.(driver := q1.driver - {r}), Ended(r.kind, r.id, err)))
  {
    EndIsOk(q, r, err);
    TakenOff(q, r);
    hide PhaseInv, Members, Dequeue, RangeOf, EventOk, IsQueuedBarrier, Held, Live;
    var q1 := if r in q.list then Dequeue(q, r) else q;
    var q2 := Log(q1.(driver := q1.driver - {r}), Ended(r.kind, r.id, err));
    assert Asked(q2.h) == Asked(q.h) && Shown(q2.h) == Shown(q.h);
    SameMembers(q1.(driver := q1.driver - {r}), q2);
    FewerMembers(q, q2, Asked(q.h), Shown(q.h), Shown(q.h));
  }

  lemma SameMembers(q: Queue, q1: Queue)
    requires q1.elv == q.elv && q1.list == q.list && q1.driver == q.driver
    ensures forall x :: (Held(q1, x) <==> Held(q, x)) && (Live(q1, x) <==> Live(q, x))
  {
  }

  lemma EndIsOk(q: Queue, r: Request, err: int)
    requires PhaseInv(q) && DataInv(q) && (r in q.list || r in q.driver) && !IsQueuedBarrier(r)
    requires r.kind.BarRq? ==> r.sectors == 0 || (r.id, RangeOf(r)) in Shown(q.h)
    ensures EventOk(q.mode, q.h, Ended(r.kind, r.id, err))
  {
    OrderedFacts(q, r);
    hide PhaseInv;
    assert Faithful(Asked(q.h), r) by { assert Held(q, r); }
  }

  lemma DequeueFields(q: Queue, r: Request)
    ensures var q1 := Dequeue(q, r); q1.h == q.h && q1.ordseq == q.ordseq && q1.mode == q.mode && q1.nextId == q.nextId
  {
  }

  lemma Recounted(q: Queue, r: Request)
    requires DataInv(q)
    ensures DataInv(q.(inFlight := q.inFlight - 1))
  {
    FewerMembers(q, q.(inFlight := q.inFlight - 1), Asked(q.h), Shown(q.h), Shown(q.h));
  }

  lemma TakenOff(q: Queue, r: Request)
    requires PhaseInv(q) && (r in q.list || r in q.driver)
    ensures var q1 := if r in q.list then Dequeue(q, r) else q;
            var q2 := q1.(driver := q1.driver - {r});
            && (forall x :: Held(q2, x) ==> Held(q, x)) && (forall x :: Live(q2, x) ==> Live(q, x))
            && q1.h == q.h && q1.ordseq == q.ordseq && q1.mode == q.mode && q1.nextId == q.nextId
  {
    if r in q.list { RemovedMembers(q.list, r); }
    hide Shapes, Counted, Gated, KeysOk, EndsAreDue, Remove;
  }

  // ---------- starting and offering ----------

  /** The proxies of a sequence ask for what the barrier at the head asked for. */
  lemma StartData(q: Queue)
    requires DataInv(q) && q.list != [] && IsFs(q.list[0]) && q.mode.Ordered?
    ensures DataInv(StartOrdered(q))
  {
    var orig, q1 := q.list[0], StartOrdered(q);
    assert Faithful(Asked(q.h), orig) by { assert Held(q, orig); }
    assert Asked(q1.h) == Asked(q.h) && Shown(q1.h) == Shown(q.h);
    forall r | r in q1.list ensures r in q.list || (!r.started && Faithful(Asked(q.h), r)) {
      ProxyMembers(q.mode, orig, q.list[1..], r);
    }
    hide ProxyRun, SkippedPhases;
    FewerMembers(q, q1, Asked(q.h), Shown(q.h), Shown(q.h));
  }

  lemma ProxyMembers(m: Mode, orig: Request, rest: seq<Request>, r: Request)
    requires m.Ordered? && r in ProxyRun(m, orig) + rest
    ensures r in rest || (!r.started && r.id == orig.id && (IsFs(r) ==> r.kind.BarRq? && RangeOf(r) == RangeOf(orig)))
  {
  }

  lemma RefuseData(q: Queue)
    requires DataInv(q) && q.list != []
    ensures DataInv(Refuse(q))
  {
    var q1 := Refuse(q);
    assert Asked(q1.h) == Asked(q.h) && Shown(q1.h) == Shown(q.h);
    FewerMembers(q, q1, Asked(q.h), Shown(q.h), Shown(q.h));
  }

  lemma DoOrderedData(q: Queue)
    requires DataInv(q) && q.list != []
    ensures DataInv(DoOrdered(q).0)
  {
    hide StartOrdered, Refuse;
    if !Active(q) && IsFs(q.list[0]) && q.list[0].hard {
      if q.mode.Ordered? { StartData(q); } else { RefuseData(q); }
    } else {
      var q1 := DoOrdered(q).0;
      FewerMembers(q, q1, Asked(q.h), Shown(q.h), Shown(q.h));
    }
  }

  lemma IssueData(q: Queue)
    requires DataInv(q) && q.list != []
    ensures DataInv(Log(q, IssueOf(q.list[0])))
    ensures q.list[0].kind.BarRq? && !IsEmptyBarrier(q.list[0]) ==>
              (q.list[0].id, RangeOf(q.list[0])) in Shown(Log(q, IssueOf(q.list[0])).h)
  {
    var r := q.list[0];
    var q1 := Log(q, IssueOf(r));
    assert Faithful(Asked(q.h), r) by { assert Held(q, r); }
    assert Asked(q1.h) == Asked(q.h) && Shown(q.h) <= Shown(q1.h);
    FewerMembers(q, q1, Asked(q.h), Shown(q.h), Shown(q1.h));
  }

  lemma MarkData(q: Queue)
    requires DataInv(q) && q.list != [] && (q.list[0].kind.BarRq? ==> (q.list[0].id, RangeOf(q.list[0])) in Shown(q.h))
    ensures DataInv(MarkStarted(q))
  {
    var r, q1 := q.list[0], MarkStarted(q);
    assert Faithful(Asked(q.h), r) by { assert Held(q, r); }
    hide EndSector;
    forall x | x in q1.list ensures x in q.list || (x == r.(started := true)) { }
    FewerMembers(q, q1, Asked(q.h), Shown(q.h), Shown(q.h));
  }

  lemma OfferData(q: Queue, prep: Prep)
    requires PhaseInv(q) && DataInv(q) && q.list != [] && HeadIsDue(q)
    ensures DataInv(Offer(q, prep))
  {
    var r := q.list[0];
    var q1 := Log(q, IssueOf(r));
    IssueKeeps(q, r);
    IssueData(q);
    hide PhaseInv, DataInv, EndRequest, MarkStarted;
    if IsEmptyBarrier(r) {
      EndData(q1, r, 0);
    } else {
      MarkKeeps(q1);
      MarkData(q1);
      MarkedHead(q1);
      if prep.Kill? { EndData(MarkStarted(q1), MarkStarted(q1).list[0], -5); }
    }
  }

  lemma MarkedHead(q: Queue)
    requires q.list != []
    ensures var q1 := MarkStarted(q); q1.list != [] && q1.list[0] == q.list[0].(started := true) && q1.h == q.h
  {
    hide EndSector;
  }

  lemma PollData(q: Queue, prep: Prep)
    requires Inv(q) && DataInv(q) && q.list != []
    ensures DataInv(Poll(q, prep))
  {
    BarrierTheorems.ColoursDiffer(q);
    DoOrderedKeeps(q);
    DoOrderedData(q);
    if DoOrdered(q).1 == Pass { PassIsDue(q); }
    hide PhaseInv, OrderInv, DataInv, DoOrdered, Offer;
    if DoOrdered(q).1 == Pass { OfferData(DoOrdered(q).0, prep); }
  }

  // ---------- the other steps ----------

  lemma AdmitData(q: Queue, s: Spec)
    requires DataInv(q) && Enabled(q, OpAdmit(s))
    ensures DataInv(Admit(q, s))
  {
    var q1, r := Admit(q, s), NewRequest(q, s);
    AdmitFields(q, s);
    assert r.id !in Asked(q.h);
    forall x | Held(q1, x) ensures Held(q, x) || x == r { }
    hide Admit, EventsOk;
    forall x | Held(q, x) ensures Faithful(Asked(q1.h), x) { assert Faithful(Asked(q.h), x); }
    assert Faithful(Asked(q1.h), r);
    assert Members(q, Asked(q1.h), Shown(q1.h));
    StillLive(q, s);
    FewerMembers(q, q1, Asked(q1.h), Shown(q1.h), Shown(q1.h));
    AdmittedOk(q, s);
  }

  lemma AdmittedOk(q: Queue, s: Spec)
    requires DataInv(q)
    ensures EventsOk(q.mode, Admit(q, s).h) && forall id :: id in Asked(Admit(q, s).h) ==> id < q.nextId + 1
  {
    AdmitFields(q, s);
    hide Admit;
  }

  lemma StillLive(q: Queue, s: Spec)
    ensures forall x :: Live(Admit(q, s), x) ==> Live(q, x)
  {
  }

  lemma DispatchData(q: Queue, r: Request, atTail: bool)
    requires DataInv(q) && r in q.elv && PhaseInv(q)
    ensures DataInv(if atTail then DispatchTail(q, r) else DispatchSort(q, r))
  {
    var q1 := if atTail then DispatchTail(q, r) else DispatchSort(q, r);
    assert ElvShape(r);
    hide PhaseInv, SortPos, EndSector;
    FewerMembers(q, q1, Asked(q.h), Shown(q.h), Shown(q.h));
  }

  lemma DequeueData(q: Queue, r: Request)
    requires DataInv(q) && PhaseInv(q) && r in q.list && r.started
    ensures DataInv(Dequeue(q, r))
  {
    TakenOver(q, r);
    hide PhaseInv, Dequeue;
    FewerMembers(q, Dequeue(q, r), Asked(q.h), Shown(q.h), Shown(q.h));
  }

  lemma TakenOver(q: Queue, r: Request)
    requires PhaseInv(q) && r in q.list && r.started
    ensures var q1 := Dequeue(q, r);
            && q1.h == q.h && q1.mode == q.mode && q1.nextId == q.nextId
            && (forall x :: Held(q1, x) ==> Held(q, x)) && (forall x :: Live(q1, x) ==> Live(q, x))
  {
    RemovedMembers(q.list, r);
    hide PhaseInv, Remove;
  }

  lemma RequeueData(q: Queue, r: Request)
    requires DataInv(q) && r in q.driver
    ensures DataInv(Requeue(q, r))
  {
    var q1 := Requeue(q, r);
    assert Faithful(Asked(q.h), r) by { assert Held(q, r); }
    hide RequeuePos, ReqSeq;
    forall x | x in q1.list ensures x in q.list || x == Requeued(r) { }
    FewerMembers(q, q1, Asked(q.h), Shown(q.h), Shown(q.h));
  }

  lemma PartialData(q: Queue, err: int)
    requires DataInv(q)
    ensures DataInv(PartialError(q, err))
  {
    var q1 := PartialError(q, err);
    assert Asked(q1.h) == Asked(q.h) && Shown(q1.h) == Shown(q.h);
    FewerMembers(q, q1, Asked(q.h), Shown(q.h), Shown(q.h));
  }

  lemma LiveEndData(q: Queue, r: Request, err: int)
    requires PhaseInv(q) && DataInv(q) && Live(q, r)
    ensures DataInv(EndRequest(q, r, err))
  {
    assert DriverShape(r) || ListShape(r);
    hide EndRequest;
    EndData(q, r, err);
  }

  lemma StepData(q: Queue, op: Op)
    requires Inv(q) && DataInv(q) && Enabled(q, op)
    ensures DataInv(Step(q, op))
  {
    hide PhaseInv, OrderInv, DataInv, Poll, EndRequest, Admit;
    match op
    case OpAdmit(s) => AdmitData(q, s);
    case OpDispatch(r, atTail) => DispatchData(q, r, atTail);
    case OpPoll(prep) => PollData(q, prep);
    case OpDequeue(r) => DequeueData(q, r);
    case OpRequeue(r) => RequeueData(q, r);
    case OpEnd(r, err) => LiveEndData(q, r, err);
    case OpPartial(_, err) => PartialData(q, err);
  }

  lemma {:induction false} RunData(q: Queue, ops: seq<Op>)
    requires Inv(q) && DataInv(q) && Legal(q, ops)
    ensures DataInv(Run(q, ops))
    decreases |ops|
  {
    hide Inv, DataInv, Step;
    if ops != [] {
      BarrierTheorems.StepKeeps(q, ops[0]);
      StepData(q, ops[0]);
      RunData(Step(q, ops[0]), ops[1..]);
    }
  }

  // ---------- the first error ----------

  /** The errors reported since the current sequence began, in order: of its phases and of parts of its data. */
  function ErrorsSince(h: History): seq<int> {
    match h
    case Empty => []
    case Then(past, e) =>
      match e
      case Begun(_, _, _) => []
      case Ended(k, _, err) => if IsProxy(k) then ErrorsSince(past) + [err] else ErrorsSince(past)
      case Partial(err) => ErrorsSince(past) + [err]
      case _ => ErrorsSince(past)
  }

  /** e is the first of the errors that is not zero, or zero if none is. */
  ghost predicate IsFirst(errors: seq<int>, e: int) {
    if e == 0 then forall i :: 0 <= i < |errors| ==> errors[i] == 0
    else exists i :: 0 <= i < |errors| && errors[i] == e && forall j :: 0 <= j < i ==> errors[j] == 0
  }

  /** The error a barrier ends with is the first one. */
  lemma {:induction false} FirstErrorWins(h: History)
    ensures IsFirst(ErrorsSince(h), SequenceError(h))
  {
    if h.Then? {
      FirstErrorWins(h.past);
      var s, e := ErrorsSince(h.past), SequenceError(h.past);
      if e != 0 {
        var i :| 0 <= i < |s| && s[i] == e && forall j :: 0 <= j < i ==> s[j] == 0;
        assert ErrorsSince(h) == [] || ErrorsSince(h)[i] == e;
      } else if ErrorsSince(h) == s + [SequenceError(h)] {
        assert ErrorsSince(h)[|s|] == SequenceError(h);
      }
    }
  }

  // ---------- the promise ----------

  /** What was carried out stays so. */
  lemma {:induction false} EndedProxyWasCarried(m: Mode, h: History, id: nat)
    requires EventsOk(m, h) && (BarRq, id) in EndedKeys(h)
    ensures Carried(h, id)
  {
    var past, e := h.past, h.event;
    if (BarRq, id) in EndedKeys(past) { EndedProxyWasCarried(m, past, id); }
    if e.Admitted? { assert e.id !in Asked(past); }
  }

  /** Each success of a barrier: an ordered mode, and what it asked for was started by the driver. */
  predicate SuccessesCarried(m: Mode, h: History) {
    match h
    case Empty => true
    case Then(past, e) =>
      && SuccessesCarried(m, past)
      && (e.Ended? && e.kind.Fs? && e.id in Barriers(past) && e.err == 0 ==> m.Ordered? && Carried(past, e.id))
  }

  lemma {:induction false} SuccessMeansCarried(m: Mode, h: History)
    requires EventsOk(m, h) && EndsAreDue(m, h)
    ensures SuccessesCarried(m, h)
  {
    if h.Then? {
      SuccessMeansCarried(m, h.past);
      var past, e := h.past, h.event;
      if e.Ended? && e.kind.Fs? && e.id in Barriers(past) && m.Ordered? { EndedProxyWasCarried(m, past, e.id); }
    }
  }

  lemma InitialData(m: Mode)
    ensures DataInv(Initial(m))
  {
  }

  lemma {:induction false} ModeStays(q: Queue, ops: seq<Op>)
    requires Legal(q, ops)
    ensures Run(q, ops).mode == q.mode
    decreases |ops|
  {
    hide Step;
    if ops != [] { ModeStays(Step(q, ops[0]), ops[1..]); }
  }

  /** In every mode and every run: a proxy anywhere has the direction and the sectors of the barrier
      admitted under its number, and so has what the driver is shown; a sequence has a pre-flush as the
      mode says, and a post-flush as the mode says if the barrier has data; a barrier with data that
      ends without error had its proxy started by the driver before, with exactly what was asked for;
      and in a mode without ordering every barrier ends with -EOPNOTSUPP. */
  lemma DataReachesTheDriver(m: Mode, ops: seq<Op>)
    requires Legal(Initial(m), ops)
    ensures var q := Run(Initial(m), ops);
            && EventsOk(m, q.h) && SuccessesCarried(m, q.h)
            && forall r :: Held(q, r) && r.kind.BarRq? ==> r.id in Asked(q.h) && RangeOf(r) == Asked(q.h)[r.id]
  {
    BarrierTheorems.InitialInv(m);
    BarrierTheorems.EverySequenceCloses(m, ops);
    InitialData(m);
    ModeStays(Initial(m), ops);
    hide Inv, Legal, Run, Initial;
    RunData(Initial(m), ops);
    var q := Run(Initial(m), ops);
    SuccessMeansCarried(m, q.h);
    forall r | Held(q, r) && r.kind.BarRq? ensures r.id in Asked(q.h) && RangeOf(r) == Asked(q.h)[r.id] {
      assert Faithful(Asked(q.h), r);
    }
  }
}
