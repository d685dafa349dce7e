/** Tag mode: a sequence is never stuck either.  The proxies of the sequence in progress stay before
    the barriers still queued, because the colours of consecutive barriers differ.            */
module BarrierTags {
  import opened Options
  import opened BarrierModel
  import opened BarrierPhases
  import opened BarrierMoves
  import opened BarrierPhaseProof
  import opened BarrierOrder
  import opened BarrierProgress
  import BarrierTheorems

  // ---------- colours ----------

  /** The colours of the barriers still queued, in the order of the list. */
  function Colours(list: seq<Request>): seq<bool> {
    if list == [] then [] else (if IsQueuedBarrier(list[0]) then [list[0].color] else []) + Colours(list[1..])
  }

  ghost predicate Alternates(s: seq<bool>) { forall i :: 0 <= i < |s| - 1 ==> s[i] != s[i + 1] }

  /** From the barrier in progress over those queued to the one that will be admitted next. */
  ghost function Chain(q: Queue): seq<bool> {
    (if Active(q) && q.orig.Some? then [q.orig.value.color] else []) + Colours(q.list) + [q.ordcolor]
  }

  lemma {:induction false} ColoursJoin(a: seq<Request>, b: seq<Request>)
    ensures Colours(a + b) == Colours(a) + Colours(b)
  {
    if a == [] {
      assert a + b == b;
    } else {
      var c := if IsQueuedBarrier(a[0]) then [a[0].color] else [];
      assert (a + b)[1..] == a[1..] + b && (a + b)[0] == a[0];
      ColoursJoin(a[1..], b);
      assert Colours(a + b) == c + (Colours(a[1..]) + Colours(b));
    }
  }

  lemma ColoursAround(a: seq<Request>, r: Request, b: seq<Request>)
    requires !IsQueuedBarrier(r)
    ensures Colours(a + [r] + b) == Colours(a + b)
  {
    ColoursJoin(a + [r], b);
    ColoursJoin(a, [r]);
    ColoursJoin(a, b);
    assert [r][1..] == [];
  }

  lemma ColoursInserted(list: seq<Request>, p: nat, r: Request)
    requires p <= |list| && !IsQueuedBarrier(r)
    ensures Colours(InsertAt(list, p, r)) == Colours(list)
  {
    ColoursAround(list[..p], r, list[p..]);
    assert list[..p] + list[p..] == list;
  }

  lemma ColoursRemoved(list: seq<Request>, r: Request)
    requires r in list && !IsQueuedBarrier(r)
    ensures Colours(Remove(list, r)) == Colours(list)
  {
    hide Colours, Remove;
    var i := RemoveSplits(list, r);
    ColoursAround(list[..i], r, list[i + 1..]);
    assert list[..i] + [r] + list[i + 1..] == list;
  }

  /** The first queued barrier at or before i shows the first colour. */
  lemma {:induction false} FirstColour(list: seq<Request>, i: nat) returns (j: nat)
    requires i < |list| && IsQueuedBarrier(list[i])
    ensures j <= i && IsQueuedBarrier(list[j]) && Colours(list) != [] && Colours(list)[0] == list[j].color
  {
    if IsQueuedBarrier(list[0]) {
      j := 0;
    } else {
      j := FirstColour(list[1..], i - 1);
      j := j + 1;
    }
  }

  // ---------- proxies come first ----------

  ghost predicate ProxiesFirst(list: seq<Request>) {
    forall i, j :: 0 <= i < j < |list| && IsQueuedBarrier(list[i]) ==> !IsProxy(list[j].kind)
  }

  lemma FirstInserted(list: seq<Request>, p: nat, r: Request)
    requires p <= |list| && ProxiesFirst(list)
    requires IsQueuedBarrier(r) ==> p == |list|
    requires IsProxy(r.kind) ==> forall i :: 0 <= i < p ==> !IsQueuedBarrier(list[i])
    ensures ProxiesFirst(InsertAt(list, p, r))
  {
    var l := InsertAt(list, p, r);
    forall i, j | 0 <= i < j < |l| && IsQueuedBarrier(l[i]) ensures !IsProxy(l[j].kind) {
      assert l[i] == if i < p then list[i] else if i == p then r else list[i - 1];
      assert l[j] == if j < p then list[j] else if j == p then r else list[j - 1];
    }
  }

  lemma FirstRemoved(list: seq<Request>, r: Request)
    requires r in list && ProxiesFirst(list)
    ensures ProxiesFirst(Remove(list, r))
  {
    var k := RemoveSplits(list, r);
    var l := Remove(list, r);
    forall i, j | 0 <= i < j < |l| && IsQueuedBarrier(l[i]) ensures !IsProxy(l[j].kind) {
      assert l[i] == (if i < k then list[i] else list[i + 1]) && l[j] == (if j < k then list[j] else list[j + 1]);
    }
  }

  // ---------- every step ----------

  ghost predicate TagInv(q: Queue) { Alternates(Chain(q)) && (Active(q) ==> ProxiesFirst(q.list)) }

  /** Closing a phase leaves the list alone, and at most ends the sequence. */
  lemma CompleteTags(q: Queue, p: Phase, err: int)
    requires TagInv(q) && Active(q) && q.orig.Some?
    ensures TagInv(CompleteSeq(q, p, err))
  {
    var q1 := CompleteSeq(q, p, err);
    assert q1.list == q.list && q1.ordcolor == q.ordcolor && q1.orig == q.orig;
    if !Active(q1) {
      assert Chain(q1) == Chain(q)[1..];
    } else {
      assert Chain(q1) == Chain(q);
    }
  }

  lemma DrainCheckTags(q: Queue)
    requires TagInv(q) && (Active(q) ==> q.orig.Some?)
    ensures TagInv(DrainCheck(q)) && (q.ordseq != {} && DrainCheck(q).ordseq != {} ==> DrainCheck(q).orig == q.orig)
  {
    var q1 := q.(bug := q.bug || (Active(q) && q.inFlight == 0 && CurSeq(q.ordseq) == Drain && q.list == []));
    assert Chain(q1) == Chain(q);
    if DrainIsOver(q) { CompleteTags(q1, Drain, 0); }
  }

  /** The request leaves the list. */
  lemma OffTheList(q: Queue, q1: Queue, r: Request)
    requires TagInv(q) && !IsQueuedBarrier(r) && q1.ordseq == q.ordseq && q1.orig == q.orig && q1.ordcolor == q.ordcolor
    requires q1.list == if r in q.list then Remove(q.list, r) else q.list
    ensures TagInv(q1)
  {
    if r in q.list {
      ColoursRemoved(q.list, r);
      if Active(q) { FirstRemoved(q.list, r); }
    }
    assert Chain(q1) == Chain(q);
  }

  /** A request that is not a barrier goes on the list; a proxy before the barriers. */
  lemma OnTheList(q: Queue, q1: Queue, p: nat, r: Request)
    requires TagInv(q) && !IsQueuedBarrier(r) && q1.ordseq == q.ordseq && q1.orig == q.orig && q1.ordcolor == q.ordcolor
    requires p <= |q.list| && q1.list == InsertAt(q.list, p, r)
    requires IsProxy(r.kind) ==> forall i :: 0 <= i < p ==> !IsQueuedBarrier(q.list[i])
    ensures TagInv(q1)
  {
    ColoursInserted(q.list, p, r);
    assert Chain(q1) == Chain(q);
    hide InsertAt, Chain, ProxiesFirst, Alternates;
    if Active(q) { FirstInserted(q.list, p, r); }
  }

  lemma SequenceHasBarrier(q: Queue)
    requires PhaseInv(q)
    ensures Active(q) ==> q.orig.Some?
  {
  }

  lemma EndTags(q: Queue, r: Request, err: int)
    requires PhaseInv(q) && TagInv(q) && (r in q.list || r in q.driver) && !IsQueuedBarrier(r)
    ensures TagInv(EndRequest(q, r, err))
  {
    SequenceHasBarrier(q);
    var q1 := if r in q.list then Dequeue(q, r) else q;
    var q2 := Log(q1.(driver := q1.driver - {r}), Ended(r.kind, r.id, err));
    var q3 := if Accounted(r) then q2.(inFlight := q2.inFlight - 1) else q2;
    OffTheList(q, q3, r);
    if IsProxy(r.kind) { ProxyIsOpen(q, r); }
    hide PhaseInv, TagInv, CompleteSeq, Remove;
    DrainCheckTags(q3);
    if IsProxy(r.kind) {
      StillActive(q3);
      CompleteTags(DrainCheck(q3), PhaseOf(r.kind), err);
    }
  }

  /** A proxy is outstanding only in a sequence, with its phase open. */
  lemma ProxyIsOpen(q: Queue, r: Request)
    requires PhaseInv(q) && (r in q.list || r in q.driver) && IsProxy(r.kind)
    ensures Active(q) && q.orig.Some? && PhaseOf(r.kind) !in q.ordseq
  {
    KeyIsListed(q, r);
    hide Unique, Shapes, Counted, Gated, EndsAreDue, Keys;
  }

  /** Closing the drain phase does not end a sequence that has a proxy open. */
  lemma StillActive(q: Queue)
    requires Active(q) && q.orig.Some? && exists p :: p in {Pre, Bar, Post} && p !in q.ordseq
    ensures Active(DrainCheck(q)) && DrainCheck(q).orig.Some?
  {
  }

  lemma StartTags(q: Queue)
    requires PhaseInv(q) && TagInv(q) && !Active(q) && q.list != [] && IsQueuedBarrier(q.list[0]) && q.mode.Ordered?
    ensures TagInv(StartOrdered(q))
  {
    hide PhaseInv, ProxyRun, SkippedPhases, ProxiesFirst, Alternates;
    var orig, rest, q1 := q.list[0], q.list[1..], StartOrdered(q);
    var run := ProxyRun(q.mode, orig);
    assert q.list == [orig] + rest;
    NoProxies(q);
    RunColours(q.mode, orig);
    ColoursJoin(run, rest);
    assert Started in q1.ordseq by { StartedFirst(q.mode, orig, q.inFlight == 0); }
    assert Chain(q1) == Chain(q);
    RunFirst(run, rest);
  }

  lemma StartedFirst(m: Mode, orig: Request, idle: bool)
    requires m.Ordered?
    ensures Started in SkippedPhases(m, orig, idle)
  {
  }

  lemma RunFirst(run: seq<Request>, rest: seq<Request>)
    requires (forall x :: x in run ==> !IsQueuedBarrier(x)) && (forall x :: x in rest ==> !IsProxy(x.kind))
    ensures ProxiesFirst(run + rest)
  {
    var l := run + rest;
    forall i, j | 0 <= i < j < |l| && IsQueuedBarrier(l[i]) ensures !IsProxy(l[j].kind) {
      assert i >= |run| && l[j] in rest;
    }
  }

  lemma NoProxies(q: Queue)
    requires PhaseInv(q) && !Active(q)
    ensures forall x :: x in q.list ==> !IsProxy(x.kind)
  {
    forall x | x in q.list ensures !IsProxy(x.kind) { KeyIsListed(q, x); }
  }

  lemma RunColours(m: Mode, orig: Request)
    requires m.Ordered?
    ensures Colours(ProxyRun(m, orig)) == [] && forall x :: x in ProxyRun(m, orig) ==> !IsQueuedBarrier(x)
  {
    NoColours(ProxyRun(m, orig));
  }

  lemma {:induction false} NoColours(list: seq<Request>)
    requires forall x :: x in list ==> !IsQueuedBarrier(x)
    ensures Colours(list) == []
  {
    if list != [] { NoColours(list[1..]); }
  }

  lemma RefuseTags(q: Queue)
    requires TagInv(q) && !Active(q) && q.list != [] && IsQueuedBarrier(q.list[0])
    ensures TagInv(Refuse(q))
  {
    assert q.list == [q.list[0]] + q.list[1..];
    assert Colours(q.list) == [q.list[0].color] + Colours(q.list[1..]);
    hide Colours;
    assert Chain(Refuse(q)) == Chain(q)[1..];
  }

  lemma DoOrderedTags(q: Queue)
    requires PhaseInv(q) && TagInv(q) && q.list != []
    ensures TagInv(DoOrdered(q).0)
  {
    if !Active(q) && IsFs(q.list[0]) && q.list[0].hard {
      NoProxies(q);
      hide PhaseInv, StartOrdered, Refuse;
      if q.mode.Ordered? { StartTags(q); } else { RefuseTags(q); }
    } else {
      assert Chain(DoOrdered(q).0) == Chain(q);
    }
  }

  lemma MarkTags(q: Queue)
    requires TagInv(q) && q.list != [] && !IsQueuedBarrier(q.list[0])
    ensures TagInv(MarkStarted(q))
  {
    hide EndSector;
    var r, rest, q1 := q.list[0], q.list[1..], MarkStarted(q);
    assert q1.list[1..] == rest && q1.list[0] == r.(started := true);
    assert Colours(q1.list) == Colours(q.list);
    assert Chain(q1) == Chain(q);
    hide Chain, Colours, Alternates, MarkStarted;
    if Active(q) {
      forall i, j | 0 <= i < j < |q1.list| && IsQueuedBarrier(q1.list[i]) ensures !IsProxy(q1.list[j].kind) {
        assert i > 0 && q1.list[i] == q.list[i] && q1.list[j] == q.list[j];
      }
    }
  }

  lemma OfferTags(q: Queue, prep: Prep)
    requires PhaseInv(q) && TagInv(q) && q.list != [] && HeadIsDue(q)
    ensures TagInv(Offer(q, prep))
  {
    var r := q.list[0];
    var q1 := Log(q, IssueOf(r));
    IssueKeeps(q, r);
    assert Chain(q1) == Chain(q);
    hide PhaseInv, EndRequest, MarkStarted, Chain, Alternates, ProxiesFirst;
    if IsEmptyBarrier(r) {
      EndTags(q1, r, 0);
    } else {
      MarkKeeps(q1);
      MarkTags(q1);
      HeadMarked(q1);
      if prep.Kill? { EndTags(MarkStarted(q1), MarkStarted(q1).list[0], -5); }
    }
  }

  lemma HeadMarked(q: Queue)
    requires q.list != []
    ensures MarkStarted(q).list != [] && MarkStarted(q).list[0] == q.list[0].(started := true)
  {
    hide EndSector;
  }

  lemma PollTags(q: Queue, prep: Prep)
    requires Inv(q) && TagInv(q) && q.list != []
    ensures TagInv(Poll(q, prep))
  {
    BarrierTheorems.ColoursDiffer(q);
    DoOrderedKeeps(q);
    DoOrderedTags(q);
    if DoOrdered(q).1 == Pass { PassIsDue(q); }
    hide PhaseInv, OrderInv, TagInv, DoOrdered, Offer;
    if DoOrdered(q).1 == Pass { OfferTags(DoOrdered(q).0, prep); }
  }

  /** A new barrier has the colour that is due, and goes behind everything. */
  lemma AdmitTags(q: Queue, s: Spec)
    requires TagInv(q) && Enabled(q, OpAdmit(s))
    ensures TagInv(Admit(q, s))
  {
    var q1, r := Admit(q, s), NewRequest(q, s);
    hide EndSector;
    if s.hard {
      assert q1.list == q.list + [r] == InsertAt(q.list, |q.list|, r);
      ColoursJoin(q.list, [r]);
      assert [r][1..] == [] && Colours([r]) == [q.ordcolor];
      assert Chain(q1) == Chain(q) + [q1.ordcolor];
      if Active(q) { FirstInserted(q.list, |q.list|, r); }
    } else if !EffectiveWhere(s).Sort? {
      var p := if EffectiveWhere(s).Front? then 0 else |q.list|;
      OnTheList(q, q1, p, r);
    } else {
      assert Chain(q1) == Chain(q);
    }
  }

  lemma DispatchTags(q: Queue, r: Request, atTail: bool)
    requires PhaseInv(q) && TagInv(q) && r in q.elv
    ensures TagInv(Step(q, OpDispatch(r, atTail)))
  {
    assert ElvShape(r);
    hide PhaseInv, EndSector;
    var q1 := Step(q, OpDispatch(r, atTail));
    var p := if atTail then |q.list| else SortPos(q.list, r, q.endSector);
    hide Chain, Alternates, ProxiesFirst, InsertAt, SortPos;
    InsertLast(q.list, r);
    OnTheList(q, q1, p, r);
  }

  lemma InsertLast(list: seq<Request>, r: Request)
    ensures InsertAt(list, |list|, r) == list + [r]
  {
  }

  /** A proxy taken back stops before the first queued barrier, whose colour is not its own. */
  lemma RequeueTags(q: Queue, r: Request)
    requires PhaseInv(q) && TagInv(q) && r in q.driver
    ensures TagInv(Requeue(q, r))
  {
    hide PhaseInv, Alternates, ProxiesFirst, RequeuePos, InsertAt, Chain, ReqSeq, Requeue;
    NoBarrierInDriver(q, r);
    RequeueFields(q, r);
    var p, r1 := if Active(q) then RequeuePos(q.list, q.orig, ReqSeq(q.orig, Requeued(r))) else 0, Requeued(r);
    if IsProxy(r.kind) {
      ProxyIsOpen(q, r);
      StopsEarly(q, r1);
    }
    OnTheList(q, Requeue(q, r), p, r1);
  }

  lemma RequeueFields(q: Queue, r: Request)
    ensures var q1 := Requeue(q, r);
            var p := if Active(q) then RequeuePos(q.list, q.orig, ReqSeq(q.orig, Requeued(r))) else 0;
            q1.ordseq == q.ordseq && q1.orig == q.orig && q1.ordcolor == q.ordcolor && q1.list == InsertAt(q.list, p, Requeued(r))
  {
  }

  lemma StopsEarly(q: Queue, r: Request)
    requires Active(q) && q.orig.Some? && Alternates(Chain(q)) && IsProxy(r.kind)
    ensures forall i :: 0 <= i < RequeuePos(q.list, q.orig, ReqSeq(q.orig, r)) ==> !IsQueuedBarrier(q.list[i])
  {
    hide Chain, Alternates, RequeuePos;
    forall i | 0 <= i < |q.list| && IsQueuedBarrier(q.list[i]) ensures i >= RequeuePos(q.list, q.orig, PhaseOf(r.kind)) {
      BarrierStopsProxies(q, i, r);
    }
  }

  lemma NoBarrierInDriver(q: Queue, r: Request)
    requires PhaseInv(q) && r in q.driver
    ensures !IsQueuedBarrier(r)
  {
    assert DriverShape(r);
  }

  lemma BarrierStopsProxies(q: Queue, i: nat, r: Request)
    requires Active(q) && q.orig.Some? && Alternates(Chain(q)) && i < |q.list| && IsQueuedBarrier(q.list[i]) && IsProxy(r.kind)
    ensures i >= RequeuePos(q.list, q.orig, PhaseOf(r.kind))
  {
    var j := FirstColour(q.list, i);
    assert Chain(q)[0] == q.orig.value.color && Chain(q)[1] == Colours(q.list)[0];
    assert ReqSeq(q.orig, q.list[j]) == Done;
  }

  lemma DequeueTags(q: Queue, r: Request)
    requires PhaseInv(q) && TagInv(q) && r in q.list && r.started
    ensures TagInv(Dequeue(q, r))
  {
    assert ListShape(r);
    hide PhaseInv, TagInv, Remove;
    OffTheList(q, Dequeue(q, r), r);
  }

  lemma LiveEndTags(q: Queue, r: Request, err: int)
    requires PhaseInv(q) && TagInv(q) && Live(q, r)
    ensures TagInv(EndRequest(q, r, err))
  {
    assert DriverShape(r) || ListShape(r);
    hide EndRequest;
    EndTags(q, r, err);
  }

  lemma PartialTags(q: Queue, err: int)
    requires TagInv(q)
    ensures TagInv(PartialError(q, err))
  {
    assert Chain(PartialError(q, err)) == Chain(q);
  }

  lemma StepTags(q: Queue, op: Op)
    requires Inv(q) && TagInv(q) && Enabled(q, op)
    ensures TagInv(Step(q, op))
  {
    hide PhaseInv, OrderInv, TagInv, Poll, EndRequest, Admit;
    match op
    case OpAdmit(s) => AdmitTags(q, s);
    case OpDispatch(r, atTail) => DispatchTags(q, r, atTail);
    case OpPoll(prep) => PollTags(q, prep);
    case OpDequeue(r) => DequeueTags(q, r);
    case OpRequeue(r) => RequeueTags(q, r);
    case OpEnd(r, err) => LiveEndTags(q, r, err);
    case OpPartial(_, err) => PartialTags(q, err);
  }

  lemma {:induction false} RunTags(q: Queue, ops: seq<Op>)
    requires Inv(q) && TagInv(q) && Legal(q, ops)
    ensures Inv(Run(q, ops)) && TagInv(Run(q, ops)) && Run(q, ops).mode == q.mode
    decreases |ops|
  {
    hide Inv, TagInv, Step;
    if ops != [] {
      BarrierTheorems.StepKeeps(q, ops[0]);
      StepTags(q, ops[0]);
      RunTags(Step(q, ops[0]), ops[1..]);
    }
  }

  // ---------- never stuck ----------

  lemma TagDrains(q: Queue)
    requires PhaseInv(q) && q.mode.Ordered? && q.mode.tag && Active(q)
    ensures Started in q.ordseq && Drain in q.ordseq
  {
    StartedIsSet(q);
  }

  /** With nothing in the driver an open proxy is on the list, and so no barrier is at its head. */
  lemma EmptyDriver(q: Queue)
    requires PhaseInv(q) && TagInv(q) && q.mode.Ordered? && q.mode.tag && Active(q) && q.driver == {}
    ensures q.list != [] && !IsQueuedBarrier(q.list[0])
  {
    TagDrains(q);
    var j := OpenPhaseIsListed(q);
    hide PhaseInv;
  }

  lemma TagVerdict(q: Queue)
    requires q.list != [] && q.mode.Ordered? && q.mode.tag
    ensures DoOrdered(q).1 == if Active(q) && IsQueuedBarrier(q.list[0]) then Hold else Pass
  {
    hide StartOrdered, Refuse;
  }

  /** In every tag-mode run: the head of the list is held back only if it is the next barrier and a
      sequence is in progress, and then the driver has something; while a sequence is in progress the
      driver or the list has something; and when the driver has nothing the next poll issues the head. */
  lemma TagModeIsNeverStuck(m: Mode, ops: seq<Op>)
    requires m.Ordered? && m.tag && Legal(Initial(m), ops)
    ensures var q := Run(Initial(m), ops);
            && (q.list != [] ==> (DoOrdered(q).1 == Hold <==> Active(q) && IsQueuedBarrier(q.list[0])))
            && (q.list != [] && DoOrdered(q).1 == Hold ==> q.driver != {})
            && (Active(q) && q.driver == {} ==> q.list != [])
            && (q.list != [] && q.driver == {} ==>
                  DoOrdered(q).1 == Pass && forall prep :: Issues(Poll(q, prep).h) == Issues(q.h) + 1)
  {
    BarrierTheorems.InitialInv(m);
    InitialTags(m);
    hide Legal, Run, TagInv, Initial;
    RunTags(Initial(m), ops);
    var q := Run(Initial(m), ops);
    hide Inv, DoOrdered;
    assert PhaseInv(q) by { PhasesOf(q); }
    if q.list != [] { TagVerdict(q); }
    if Active(q) && q.driver == {} { EmptyDriver(q); }
    if q.list != [] && q.driver == {} { forall prep { PassIssues(q, prep); } }
  }

  lemma InitialTags(m: Mode)
    ensures TagInv(Initial(m)) && Initial(m).mode == m
  {
  }

  lemma PhasesOf(q: Queue)
    requires Inv(q)
    ensures PhaseInv(q)
  {
  }
}
