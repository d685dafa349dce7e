/** The request queue as the kernel keeps it: fields updated in place under the queue lock,
    the phases as a bit mask, the dispatch list walked entry by entry.  Every method is
    tied to the step of BarrierModel that it implements.                                  */
module OrdSeqBits {
  import opened BarrierModel

  type Mask = b: bv8 | b & 0xe0 == 0

  function Bit(p: Phase): bv8 {
    match p
    case Started => 0x01
    case Drain => 0x02
    case Pre => 0x04
    case Bar => 0x08
    case Post => 0x10
    case Done => 0x20
  }

  predicate Has(b: bv8, p: Phase) { b & Bit(p) != 0 }

  function Decode(b: bv8): set<Phase> {
    (if Has(b, Started) then {Started} else {})
    + (if Has(b, Drain) then {Drain} else {})
    + (if Has(b, Pre) then {Pre} else {})
    + (if Has(b, Bar) then {Bar} else {})
    + (if Has(b, Post) then {Post} else {})
  }

  /** The position of the lowest zero bit of a mask. */
  function Ffz(b: bv8): nat {
    if b & 0x01 == 0 then 0
    else if b & 0x02 == 0 then 1
    else if b & 0x04 == 0 then 2
    else if b & 0x08 == 0 then 3
    else if b & 0x10 == 0 then 4
    else 5
  }

  function CurSeqBits(b: Mask): bv8 { if b == 0 then 0 else (1 as bv8) << Ffz(b) }

  /** One shift and one comparison of masks stand for the search for the first open phase
      and the comparison of phases. */
  lemma CurSeqIsLowest(b: Mask)
    ensures b != 0 <==> Decode(b) != {}
    ensures b != 0 ==> CurSeqBits(b) == Bit(CurSeq(Decode(b)))
  {
  }

  lemma BitsCompare(p: Phase, q: Phase)
    ensures Bit(p) < Bit(q) <==> Rank(p) < Rank(q)
  {
  }

  lemma BitStays(b: bv8, o: Phase, p: Phase)
    ensures Has(b | Bit(p), o) <==> Has(b, o) || o == p
  {
    match o case Started => case Drain => case Pre => case Bar => case Post => case Done =>
  }

  lemma SettingABit(b: Mask, p: Phase)
    requires p != Done
    ensures (b | Bit(p)) & 0xe0 == 0 && Decode(b | Bit(p)) == Decode(b) + {p}
    ensures Has(b, p) <==> p in Decode(b)
  {
    BitStays(b, Started, p); BitStays(b, Drain, p); BitStays(b, Pre, p); BitStays(b, Bar, p); BitStays(b, Post, p);
  }

  /** The sequence is recognised as closed exactly when its last phase is set. */
  lemma ClosesExactly(b: Mask, p: Phase)
    requires p != Done
    ensures (b | Bit(p)) & 0xe0 == 0 && Decode(b | Bit(p)) == Decode(b) + {p}
    ensures CurSeqBits(b | Bit(p)) == Bit(Done) <==> CurSeq(Decode(b) + {p}) == Done
  {
    SettingABit(b, p);
    var c: Mask := b | Bit(p);
    CurSeqIsLowest(c);
    BitsCompare(CurSeq(Decode(c)), Done);
  }
}

module RequestQueues {
  import opened Options
  import opened BarrierModel
  import opened OrdSeqBits
  import opened BarrierPhases
  import opened BarrierOrder
  import opened BarrierPhaseProof
  import opened BarrierTheorems

  lemma HeadPhase(q: Queue)
    requires PhaseInv(q) && q.list != [] && HeadIsDue(q)
    ensures Active(q) ==> q.orig.Some?
    ensures IsProxy(q.list[0].kind) ==>
              Active(q) && q.orig.Some? && Drain in q.ordseq && PhaseOf(q.list[0].kind) !in q.ordseq
  {
    KeyIsListed(q, q.list[0]);
  }

  lemma LivePhase(q: Queue, r: Request)
    requires PhaseInv(q) && Live(q, r)
    ensures Active(q) ==> q.orig.Some?
    ensures IsProxy(r.kind) ==> Active(q) && q.orig.Some? && Drain in q.ordseq && PhaseOf(r.kind) !in q.ordseq
  {
    KeyIsListed(q, r);
  }

  lemma PollIsDue(q: Queue)
    requires Inv(q) && q.list != []
    ensures PhaseInv(DoOrdered(q).0)
    ensures DoOrdered(q).1 == Pass ==> DoOrdered(q).0.list != [] && HeadIsDue(DoOrdered(q).0)
  {
    ColoursDiffer(q);
    DoOrderedKeeps(q);
    if DoOrdered(q).1 == Pass { PassIsDue(q); }
  }

  lemma {:induction false} RunExtends(q: Queue, ops: seq<Op>, op: Op)
    requires Legal(q, ops) && Enabled(Run(q, ops), op)
    ensures Legal(q, ops + [op]) && Run(q, ops + [op]) == Step(Run(q, ops), op)
    decreases |ops|
  {
    var all := ops + [op];
    if ops == [] {
      assert all[1..] == [];
    } else {
      assert all[0] == ops[0] && all[1..] == ops[1..] + [op];
      RunExtends(Step(q, ops[0]), ops[1..], op);
    }
  }

  // ---------- rounds of elv_next_request ----------

  datatype Outcome = Shown | Again | PutOff

  /** How many barriers wait for their sequence to begin. */
  function Waiting(list: seq<Request>): nat {
    if list == [] then 0 else (if IsQueuedBarrier(list[0]) then 1 else 0) + Waiting(list[1..])
  }

  predicate Smaller(a: seq<Request>, b: seq<Request>) {
    Waiting(a) < Waiting(b) || (Waiting(a) == Waiting(b) && |a| < |b|)
  }

  lemma SmallerMeans(a: seq<Request>, b: seq<Request>)
    requires Smaller(a, b)
    ensures Waiting(a) < Waiting(b) || (Waiting(a) == Waiting(b) && |a| < |b|)
  {
  }

  lemma {:induction false} NoneWaits(run: seq<Request>, rest: seq<Request>)
    requires forall r :: r in run ==> !IsQueuedBarrier(r)
    ensures Waiting(run + rest) == Waiting(rest)
    decreases |run|
  {
    if run == [] {
      assert run + rest == rest;
    } else {
      assert (run + rest)[1..] == run[1..] + rest && (run + rest)[0] == run[0] && run[0] in run;
      NoneWaits(run[1..], rest);
    }
  }

  /** A request ended while on the list leaves it, and nothing else moves. */
  lemma EndTakesOff(q: Queue, r: Request, err: int)
    requires r in q.list
    ensures EndRequest(q, r, err).list == Remove(q.list, r) && EndRequest(q, r, err).elv == q.elv
  {
    hide CompleteSeq, DrainCheck, Remove;
    var q1 := Dequeue(q, r);
    var q2 := Log(q1.(driver := q1.driver - {r}), Ended(r.kind, r.id, err));
    var q3 := if Accounted(r) then q2.(inFlight := q2.inFlight - 1) else q2;
    CheckStays(q3);
    if IsProxy(r.kind) { CompleteStays(DrainCheck(q3), PhaseOf(r.kind), err); }
  }

  lemma CompleteStays(q: Queue, p: Phase, err: int)
    ensures CompleteSeq(q, p, err).list == q.list && CompleteSeq(q, p, err).elv == q.elv
  {
  }

  lemma CheckStays(q: Queue)
    ensures DrainCheck(q).list == q.list && DrainCheck(q).elv == q.elv
  {
    hide CompleteSeq;
    CompleteStays(q.(bug := q.bug || (Active(q) && q.inFlight == 0 && CurSeq(q.ordseq) == Drain && q.list == [])), Drain, 0);
  }

  lemma StartShrinks(q: Queue)
    requires q.list != [] && q.mode.Ordered? && IsQueuedBarrier(q.list[0])
    ensures var q1 := StartOrdered(q); q1.elv == q.elv && q1.list != [] && Waiting(q1.list) < Waiting(q.list)
    ensures forall l :: l == StartOrdered(q).list[1..] ==> Waiting(l) < Waiting(q.list)
  {
    var run, rest := ProxyRun(q.mode, q.list[0]), q.list[1..];
    NoneWaits(run, rest);
    NoneWaits(run[1..], rest);
    assert (run + rest)[1..] == run[1..] + rest;
  }

  /** The head is ended by the round that offered it. */
  lemma OfferTakesOff(q: Queue, prep: Prep)
    requires q.list != [] && !IsQueuedBarrier(q.list[0])
    ensures Offer(q, prep).elv == q.elv
    ensures IsEmptyBarrier(q.list[0]) || prep.Kill? ==> Offer(q, prep).list == q.list[1..]
    ensures !(IsEmptyBarrier(q.list[0]) || prep.Kill?) ==>
              Offer(q, prep).list == [q.list[0].(started := true)] + q.list[1..]
  {
    hide EndRequest, EndSector;
    var r := q.list[0];
    var q1 := Log(q, IssueOf(r));
    EndTakesOff(q1, r, 0);
    var q2 := MarkStarted(q1);
    EndTakesOff(q2, q2.list[0], -5);
  }

  lemma PollShrinks(q: Queue, prep: Prep)
    requires Inv(q) && q.list != []
    ensures var (q1, v) := DoOrdered(q);
            && Poll(q, prep).elv == q.elv
            && (v == Refused ==> Smaller(Poll(q, prep).list, q.list)) && (v == Hold ==> Poll(q, prep).list != [])
            && (v == Pass ==> q1.list != [] && !IsQueuedBarrier(q1.list[0]))
            && (v == Pass && (IsEmptyBarrier(q1.list[0]) || prep.Kill?) ==> Smaller(Poll(q, prep).list, q.list))
            && (v == Pass && !(IsEmptyBarrier(q1.list[0]) || prep.Kill?) ==>
                  Poll(q, prep).list == [q1.list[0].(started := true)] + q1.list[1..])
  {
    hide Inv, PhaseInv, Offer, StartOrdered;
    PollIsDue(q);
    var (q1, v) := DoOrdered(q);
    if !Active(q) && IsFs(q.list[0]) && q.list[0].hard {
      NoProxyIdle(q);
      if q.mode.Ordered? { StartShrinks(q); }
    }
    if v == Pass {
      hide DoOrdered, Active, ReqSeq;
      OfferTakesOff(q1, prep);
    }
  }

  /** With no sequence in progress what looks like a barrier at the head is one that waits. */
  lemma NoProxyIdle(q: Queue)
    requires Inv(q) && !Active(q) && q.list != [] && IsFs(q.list[0])
    ensures q.list[0].kind.Fs?
  {
    NoProxies(q);
  }

  lemma EmptyRun(q: Queue)
    ensures Legal(q, []) && Run(q, []) == q
  {
  }

  /** Setting a phase bit, and whether that was the last one. */
  method SetPhase(mask: Mask, p: Phase) returns (set1: Mask, closed: bool)
    requires p != Done
    ensures Decode(set1) == Decode(mask) + {p}
    ensures closed <==> CurSeq(Decode(mask) + {p}) == Done
  {
    ClosesExactly(mask, p);
    set1 := mask | Bit(p);
    closed := CurSeqBits(set1) == Bit(Done);
  }

  /** The phases that start_ordered sets outright. */
  method StartMask(m: Mode, orig: Request, idle: bool) returns (mask: Mask)
    requires m.Ordered?
    ensures Decode(mask) == SkippedPhases(m, orig, idle)
  {
    CurSeqIsLowest(0);
    var closed;
    mask, closed := SetPhase(0, Started);
    if !NeedsPost(m, orig) { mask, closed := SetPhase(mask, Post); }
    if !m.pre { mask, closed := SetPhase(mask, Pre); }
    if m.tag || idle { mask, closed := SetPhase(mask, Drain); }
  }

  /** The proxies go to the head of the list one by one, last phase first. */
  method StackProxies(m: Mode, orig: Request, rest: seq<Request>) returns (l: seq<Request>)
    requires m.Ordered?
    ensures l == ProxyRun(m, orig) + rest
  {
    l := rest;
    if NeedsPost(m, orig) { l := [Flush(PostFlushRq, orig)] + l; }
    l := [Proxy(orig)] + l;
    if m.pre { l := [Flush(PreFlushRq, orig)] + l; }
  }

  lemma ProxyAt(m: Mode, orig: Request, rest: seq<Request>)
    requires m.Ordered?
    ensures var l, k := ProxyRun(m, orig) + rest, if m.pre then 1 else 0;
            k < |l| && l[k].kind.BarRq? && l[k].id == orig.id && RangeOf(l[k]) == RangeOf(orig)
  {
  }

  /** The backward walk of elv_dispatch_sort. */
  method FindSortPos(list: seq<Request>, rq: Request, limit: int) returns (p: nat)
    ensures p == SortPos(list, rq, limit)
  {
    p := |list|;
    while p > 0 && !StopsAt(rq, list[p - 1], limit)
      invariant 0 <= p <= |list|
      invariant SortPos(list[..p], rq, limit) == SortPos(list, rq, limit)
    {
      assert list[..p][..p - 1] == list[..p - 1];
      p := p - 1;
    }
  }

  /** The forward walk of a requeue, comparing phase bits. */
  method FindRequeuePos(list: seq<Request>, orig: Option<Request>, s: Phase) returns (p: nat)
    ensures p == RequeuePos(list, orig, s)
  {
    p := 0;
    while p < |list| && Bit(ReqSeq(orig, list[p])) < Bit(s)
      invariant 0 <= p <= |list|
      invariant RequeuePos(list, orig, s) == p + RequeuePos(list[p..], orig, s)
    {
      BitsCompare(ReqSeq(orig, list[p]), s);
      assert list[p..][1..] == list[p + 1..];
      p := p + 1;
    }
    if p < |list| { BitsCompare(ReqSeq(orig, list[p]), s); }
  }

  /** What is known about the queue besides its fields: the phases that the mask stands
      for, and the history. */
  datatype Past = Past(phases: set<Phase>, bug: bool, warned: bool, base: nat, pending: seq<Request>, h: History)

  class RequestQueue {
    const mode: Mode
    var elv: set<Request>
    var list: seq<Request>
    var driver: set<Request>
    var inFlight: int
    var ordcolor: bool
    var ordseq: Mask
    var orderr: int
    var orig: Option<Request>
    var endSector: int
    var boundary: Option<Key>
    var nextId: nat
    var barriers: nat  // how many have been admitted; copied into requests as history
    ghost var past: Past

    ghost predicate Valid()
      reads this
    {
      past.phases == Decode(ordseq) && barriers == |Barriers(past.h)|
    }

    ghost function Abs(): Queue
      reads this
    {
      Queue(mode, elv, list, driver, inFlight, ordcolor, past.phases, orderr, orig, endSector, boundary, nextId,
            past.bug, past.warned, past.base, past.pending, past.h)
    }

    constructor (m: Mode)
      ensures Valid() && mode == m && Abs() == Initial(m) && Inv(Abs())
    {
      mode := m;
      elv, list, driver, inFlight := {}, [], {}, 0;
      ordcolor, ordseq, orderr, orig := false, 0, 0, None;
      endSector, boundary, nextId, barriers := 0, None, 0, 0;
      past := Past({}, false, false, 0, [], Empty);
      new;
      CurSeqIsLowest(ordseq);
      InitialInv(m);
    }

    method RecordError(err: int)
      modifies `orderr
      ensures Abs() == old(Abs()).(orderr := FirstError(old(orderr), err))
    {
      if err != 0 && orderr == 0 { orderr := err; }
    }

    method SetBit(p: Phase) returns (closed: bool)
      requires Valid() && p != Done
      modifies `ordseq, `past
      ensures Valid() && Abs() == old(Abs()).(ordseq := old(past.phases) + {p})
      ensures closed <==> CurSeq(past.phases) == Done
    {
      ordseq, closed := SetPhase(ordseq, p);
      past := past.(phases := past.phases + {p});
    }

    method CloseSequence()
      requires Valid() && orig.Some?
      modifies `ordseq, `past
      ensures Valid() && Abs() == Log(old(Abs()).(ordseq := {}), Ended(Fs, orig.value.id, orderr))
    {
      CurSeqIsLowest(0);
      ordseq := 0;
      past := past.(phases := {}, h := Then(past.h, Ended(Fs, orig.value.id, orderr)));
    }

    /** blk_ordered_complete_seq.  The caller owes the BUG_ON that the phase is still open. */
    method CompleteSeqBits(p: Phase, err: int)
      requires Valid() && p in {Drain, Pre, Bar, Post} && p !in past.phases && orig.Some?
      modifies `ordseq, `past, `orderr
      ensures Valid() && Abs() == CompleteSeq(old(Abs()), p, err)
    {
      RecordError(err);
      var closed := SetBit(p);
      if closed { CloseSequence(); }
    }

    /** elv_dispatch_sort: rq goes where the backward walk stops. */
    method DispatchSorted(rq: Request)
      requires Valid() && rq in elv
      modifies this
      ensures Valid() && Abs() == DispatchSort(old(Abs()), rq)
    {
      var p := FindSortPos(list, rq, endSector);
      elv := elv - {rq};
      list := list[..p] + [rq] + list[p..];
    }

    method DispatchAtTail(rq: Request)
      requires Valid() && rq in elv
      modifies this
      ensures Valid() && Abs() == DispatchTail(old(Abs()), rq)
    {
      elv := elv - {rq};
      endSector, boundary := EndSector(rq), Some(KeyOf(rq));
      list := list + [rq];
    }

    /** elv_dequeue_request. */
    method DequeueRequest(rq: Request)
      requires Valid() && rq in list
      modifies `list, `driver, `inFlight
      ensures Valid() && Abs() == Dequeue(old(Abs()), rq)
    {
      list := Remove(list, rq);
      driver := driver + {rq};
      if Accounted(rq) { inFlight := inFlight + 1; }
    }

    /** elv_requeue_request; during a sequence the request goes where its phase belongs. */
    method RequeueRequest(rq: Request)
      requires Valid() && rq in driver
      modifies this
      ensures Valid() && Abs() == Requeue(old(Abs()), rq)
    {
      CurSeqIsLowest(ordseq);
      driver := driver - {rq};
      if Accounted(rq) { inFlight := inFlight - 1; }
      var r1 := rq.(started := false, soft := true);
      var p := 0;
      if ordseq != 0 { p := FindRequeuePos(list, orig, ReqSeq(orig, r1)); }
      list := list[..p] + [r1] + list[p..];
    }

    /** start_ordered for the barrier at the head; the proxies are stacked in reverse. */
    method Start()
      requires Valid() && list != [] && ordseq == 0 && mode.Ordered?
      modifies `orderr, `orig, `list, `ordseq, `past
      ensures Valid() && Abs() == StartOrdered(old(Abs()))
      ensures var k := if mode.pre then 1 else 0;
              k < |list| && list[k].kind.BarRq? && list[k].id == old(list)[0].id && RangeOf(list[k]) == RangeOf(old(list)[0])
    {
      hide Decode, SkippedPhases, ProxyRun, NeedsPost;
      ghost var q := StartOrdered(Abs());
      ProxyAt(mode, list[0], list[1..]);
      var mask := StartMask(mode, list[0], inFlight == 0);
      var l := StackProxies(mode, list[0], list[1..]);
      orderr, orig, list, ordseq := 0, Some(list[0]), l, mask;
      past := Past(q.ordseq, q.bug, q.warned, q.base, q.pending, q.h);
    }

    /** elv_completed_request; the drain phase closes when nothing older is left. */
    method CompletedBy(rq: Request)
      requires Valid() && (past.phases != {} ==> orig.Some?)
      modifies `inFlight, `ordseq, `past, `orderr
      ensures Valid() && Abs() == CompletedRequest(old(Abs()), rq)
      ensures Drain in old(past.phases) ==> past.phases == old(past.phases)
    {
      hide Decode;
      if Accounted(rq) { inFlight := inFlight - 1; }
      var over := IsDrainOver();
      past := past.(bug := DrainCheck(Abs()).bug);
      if over { CompleteSeqBits(Drain, 0); }
    }

    method IsDrainOver() returns (over: bool)
      requires Valid()
      ensures over <==> DrainIsOver(Abs())
    {
      CurSeqIsLowest(ordseq);
      over := ordseq != 0 && inFlight == 0 && CurSeqBits(ordseq) == Bit(Drain) && list != [];
      BitsCompare(CurSeq(past.phases), Drain);
      BitsCompare(Drain, CurSeq(past.phases));
      if over {
        BitsCompare(Drain, ReqSeq(orig, list[0]));
        over := Bit(ReqSeq(orig, list[0])) > Bit(Drain);
      }
    }

    /** The request leaves the list, if it is there, and the driver. */
    method Leave(rq: Request, err: int)
      requires Valid()
      modifies `list, `driver, `inFlight, `past
      ensures Valid()
      ensures var q := if rq in old(list) then Dequeue(old(Abs()), rq) else old(Abs());
              Abs() == Log(q.(driver := q.driver - {rq}), Ended(rq.kind, rq.id, err))
    {
      if rq in list { DequeueRequest(rq); }
      driver := driver - {rq};
      past := past.(h := Then(past.h, Ended(rq.kind, rq.id, err)));
    }

    /** end_that_request_last and the end_io callbacks of the proxies. */
    method End(rq: Request, err: int)
      requires Valid() && (past.phases != {} ==> orig.Some?)
      requires IsProxy(rq.kind) ==> orig.Some? && PhaseOf(rq.kind) !in past.phases && past.phases != {} && Drain in past.phases
      modifies `list, `driver, `inFlight, `ordseq, `past, `orderr
      ensures Valid() && Abs() == EndRequest(old(Abs()), rq, err)
    {
      Leave(rq, err);
      CompletedBy(rq);
      if IsProxy(rq.kind) {
        assert past.phases == old(past.phases) && orig == old(orig);
        CompleteSeqBits(PhaseOf(rq.kind), err);
      }
    }

    method RefuseHead()
      requires Valid() && list != []
      modifies `list, `past
      ensures Valid() && Abs() == Refuse(old(Abs()))
    {
      past := past.(base := past.base + 1, pending := if past.pending == [] then [] else past.pending[1..],
                    h := Then(past.h, Ended(Fs, list[0].id, -95)));
      list := list[1..];
    }

    /** blk_do_ordered on a non-empty list. */
    method DoOrderedHead() returns (v: Verdict)
      requires Valid() && list != []
      modifies `orderr, `orig, `list, `ordseq, `past
      ensures Valid() && (Abs(), v) == DoOrdered(old(Abs()))
    {
      var rq := list[0];
      CurSeqIsLowest(ordseq);
      var isBarrier := IsFs(rq) && rq.hard;
      if ordseq == 0 {
        if !isBarrier { return Pass; }
        if mode.Ordered? {
          v := if mode.tag || inFlight == 0 then Pass else Hold;
          Start();
        } else {
          RefuseHead();
          v := Refused;
        }
      } else if !IsFs(rq) && !rq.kind.PreFlushRq? && !rq.kind.PostFlushRq? {
        v := Pass;
      } else if mode.Ordered? && mode.tag {
        v := if isBarrier && !rq.kind.BarRq? then Hold else Pass;
      } else {
        var p := ReqSeq(orig, rq);
        BitsCompare(p, CurSeq(past.phases));
        BitsCompare(CurSeq(past.phases), p);
        past := past.(warned := past.warned || Rank(p) < Rank(CurSeq(past.phases)));
        v := if Bit(p) > CurSeqBits(ordseq) then Hold else Pass;
      }
    }

    /** elv_next_request up to the driver's answer: the head, if ordering lets it through,
        is marked as started. */
    method StartHead()
      requires Valid() && list != []
      modifies `list, `endSector, `boundary
      ensures Valid() && Abs() == MarkStarted(old(Abs()))
      ensures list == old(list)[0 := old(list)[0].(started := true)]
      ensures if old(boundary) == None || old(boundary) == Some(KeyOf(old(list)[0]))
              then boundary == None && endSector == old(list)[0].sector + old(list)[0].sectors
              else boundary == old(boundary) && endSector == old(endSector)
    {
      hide Decode;
      var r := list[0];
      list := [r.(started := true)] + list[1..];
      if boundary.None? || boundary == Some(KeyOf(r)) { endSector, boundary := EndSector(r), None; }
    }

    /** The head is on its way to the driver. */
    method RecordIssue()
      requires Valid() && list != []
      modifies `past
      ensures Valid() && Abs() == Log(old(Abs()), IssueOf(list[0]))
    {
      past := past.(h := Then(past.h, IssueOf(list[0])));
    }

    method OfferHead(prep: Prep)
      requires Valid() && list != [] && PhaseInv(Abs()) && HeadIsDue(Abs())
      modifies `list, `endSector, `boundary, `driver, `inFlight, `ordseq, `past, `orderr
      ensures Valid() && Abs() == Offer(old(Abs()), prep)
    {
      hide PhaseInv, HeadIsDue, EndRequest, Decode;
      ghost var q := Abs();
      HeadPhase(q);
      var rq := list[0];
      RecordIssue();
      if IsEmptyBarrier(rq) {
        End(rq, 0);
      } else {
        StartHead();
        if prep.Kill? { End(list[0], -5); }
      }
    }

    // ---------- what the rest of the kernel calls ----------

    /** One round of elv_next_request with a request at hand: it is shown to the driver, or it is gone and
        the round is to be repeated, or ordering or the driver puts it off. */
    method NextRound(prep: Request -> Prep) returns (outcome: Outcome, ghost answer: Prep)
      requires Valid() && Inv(Abs()) && list != []
      modifies this
      ensures Valid() && Inv(Abs()) && elv == old(elv)
      ensures Enabled(old(Abs()), OpPoll(answer)) && Abs() == Step(old(Abs()), OpPoll(answer))
      ensures outcome == Shown ==> list != [] && list[0].started && !IsQueuedBarrier(list[0])
      ensures outcome == Again ==> Smaller(list, old(list))
      ensures outcome == PutOff ==> list != [] && (DoOrdered(old(Abs())).1 == Hold || answer == Defer)
    {
      hide Inv, DoOrdered, Offer, Decode, Smaller, Waiting;
      ghost var q := Abs();
      PollIsDue(q);
      answer := if DoOrdered(q).1 == Pass && DoOrdered(q).0.list != [] then prep(DoOrdered(q).0.list[0]) else Ok;
      StepKeeps(q, OpPoll(answer));
      PollShrinks(q, answer);
      var v := DoOrderedHead();
      if v == Pass {
        var gone, a := IsEmptyBarrier(list[0]), prep(list[0]);
        OfferHead(a);
        outcome := if gone || a.Kill? then Again else if a.Defer? then PutOff else Shown;
      } else {
        outcome := if v == Hold then PutOff else Again;
      }
    }

    /** elv_next_request: rounds, with the scheduler asked whenever the list is empty, until a request is
        shown, put off, or none is to be had.  `willing` says whether the scheduler dispatches when
        it is asked for the k-th time.  The steps taken are a legal run. */
    method NextRequest(prep: Request -> Prep, willing: nat -> bool) returns (rq: Option<Request>, ghost ops: seq<Op>)
      requires Valid() && Inv(Abs())
      modifies this
      ensures Valid() && Inv(Abs()) && Legal(old(Abs()), ops) && Abs() == Run(old(Abs()), ops)
      ensures rq.Some? ==> list != [] && rq == Some(list[0]) && list[0].started && !IsQueuedBarrier(list[0])
      ensures rq == None && list == [] ==> elv == {} || exists k :: !willing(k)
    {
      hide Decode, Inv, Smaller, Waiting, Step, Enabled, DoOrdered;
      hide Legal, Run;
      ops := [];
      EmptyRun(Abs());
      var asked: nat := 0;
      while true
        invariant Valid() && Inv(Abs()) && Legal(old(Abs()), ops) && Abs() == Run(old(Abs()), ops)
        decreases elv, Waiting(list), |list|
      {
        if list == [] {
          if elv == {} { return None, ops; }
          if !willing(asked) { return None, ops; }
          asked := asked + 1;
          ghost var op := DispatchSome();
          RunExtends(old(Abs()), ops, op);
          ops := ops + [op];
        } else {
          ghost var q, was := Abs(), list;
          var outcome, answer := NextRound(prep);
          RunExtends(old(Abs()), ops, OpPoll(answer));
          ops := ops + [OpPoll(answer)];
          if outcome == Shown { return Some(list[0]), ops; }
          if outcome == PutOff { return None, ops; }
          SmallerMeans(list, was);
        }
      }
    }

    /** The scheduler dispatches a request of its choice. */
    method DispatchSome() returns (ghost op: Op)
      requires Valid() && Inv(Abs()) && elv != {}
      modifies this
      ensures Valid() && Inv(Abs()) && Enabled(old(Abs()), op) && Abs() == Step(old(Abs()), op) && elv < old(elv)
    {
      hide Decode, Inv;
      var rq :| rq in elv;
      var atTail: bool := *;
      op := OpDispatch(rq, atTail);
      StepKeeps(Abs(), op);
      if atTail { DispatchAtTail(rq); } else { DispatchSorted(rq); }
    }

    /** The driver reports a request as done. */
    method Complete(rq: Request, err: int)
      requires Valid() && Inv(Abs()) && Enabled(Abs(), OpEnd(rq, err))
      modifies this
      ensures Valid() && Inv(Abs()) && Abs() == Step(old(Abs()), OpEnd(rq, err))
    {
      StepKeeps(Abs(), OpEnd(rq, err));
      LivePhase(Abs(), rq);
      End(rq, err);
    }

    /** elv_drain_elevator: whatever order the scheduler chooses, its requests end up on
        the list, and the steps taken are a legal run. */
    method DrainElevator() returns (ghost ops: seq<Op>)
      requires Valid() && Inv(Abs())
      modifies this
      ensures Valid() && Inv(Abs()) && elv == {}
      ensures Legal(old(Abs()), ops) && Abs() == Run(old(Abs()), ops)
    {
      hide Decode, Inv;
      ops := [];
      while elv != {}
        invariant Valid() && Inv(Abs()) && Legal(old(Abs()), ops) && Abs() == Run(old(Abs()), ops)
        decreases elv
      {
        ghost var op := DispatchSome();
        RunExtends(old(Abs()), ops, op);
        ops := ops + [op];
      }
    }

    /** elv_insert: the scheduler or an end of the list gets the request. */
    method Link(at: Where, r: Request)
      modifies `list, `elv
      ensures elv == if at.Sort? then old(elv) + {r} else old(elv)
      ensures list == match at
                      case Front => InsertAt(old(list), 0, r)
                      case Back => InsertAt(old(list), |old(list)|, r)
                      case Sort => old(list)
    {
      match at {
        case Front => list := [r] + list;
        case Back => list := list + [r];
        case Sort => elv := elv + {r};
      }
    }

    /** A boundary request moves the end of what the scheduler may sort against. */
    method NoteBoundary(r: Request, isBoundary: bool)
      modifies `endSector, `boundary
      ensures endSector == if isBoundary then EndSector(r) else old(endSector)
      ensures boundary == if isBoundary then Some(KeyOf(r)) else old(boundary)
    {
      if isBoundary { endSector, boundary := EndSector(r), Some(KeyOf(r)); }
    }

    /** The colour toggles behind a barrier. */
    method CountAdmission(hard: bool)
      modifies `nextId, `ordcolor, `barriers
      ensures nextId == old(nextId) + 1 && ordcolor == (old(ordcolor) != hard)
      ensures barriers == old(barriers) + if hard then 1 else 0
    {
      nextId := nextId + 1;
      if hard { ordcolor, barriers := !ordcolor, barriers + 1; }
    }

    /** Placing a new request, once its place is decided and the scheduler drained. */
    method Place(s: Spec)
      requires Valid() && Enabled(Abs(), OpAdmit(s))
      modifies `list, `elv, `endSector, `boundary, `nextId, `ordcolor, `barriers, `past
      ensures Valid() && Abs() == Admit(old(Abs()), s)
    {
      hide Decode, EndSector, EffectiveWhere, Enabled, InsertAt;
      ghost var q := Admit(Abs(), s);
      var at := EffectiveWhere(s);
      var r := Request(nextId, s.kind, s.write, s.sector, s.sectors, s.hard, s.soft || !at.Sort?, ordcolor, false,
                       at.Sort?, barriers);
      Link(at, r);
      NoteBoundary(r, (s.soft || s.hard) && IsFs(r));
      CountAdmission(s.hard);
      past := past.(pending := q.pending, h := q.h);
    }

    /** __elv_add_request: colour the request, toggle the colour behind a barrier, and
        drain the scheduler before a back insertion. */
    method AddRequest(s: Spec) returns (ghost ops: seq<Op>)
      requires Valid() && Inv(Abs()) && Enabled(Abs().(elv := {}), OpAdmit(s))
      modifies this
      ensures Valid() && Inv(Abs())
      ensures Legal(old(Abs()), ops) && Abs() == Run(old(Abs()), ops)
      ensures ops != [] && ops[|ops| - 1] == OpAdmit(s)
    {
      hide Decode, Inv, Admit;
      ops := [];
      if EffectiveWhere(s).Back? { ops := DrainElevator(); }
      StepKeeps(Abs(), OpAdmit(s));
      RunExtends(old(Abs()), ops, OpAdmit(s));
      Place(s);
      ops := ops + [OpAdmit(s)];
    }
  }
}
