/** Every step of every run keeps the phase invariant.                                    */
module BarrierPhaseProof {
  import opened Options
  import opened BarrierModel
  import opened BarrierPhases
  import opened BarrierMoves

  // ---------- ends ----------

  lemma FactsAfterEnd(ks: set<Key>, h: History, nextId: nat, cur: Option<nat>, k: Key, err: int)
    requires KeyFacts(ks, h, nextId, cur) && k in ks && (IsProxy(k.0) ==> k.1 in Sequences(h))
    ensures KeyFacts(ks - {k}, Then(h, Ended(k.0, k.1, err)), nextId, cur)
    ensures OthersAreOver(h, cur) ==> OthersAreOver(Then(h, Ended(k.0, k.1, err)), cur)
  {
    var h1 := Then(h, Ended(k.0, k.1, err));
    assert EndedKeys(h1) == EndedKeys(h) + {k};
    forall x | x in AdmittedFs(h1) ensures (Fs, x) in ks - {k} || (Fs, x) in EndedKeys(h1) || cur == Some(x) {
      assert x in AdmittedFs(h);
    }
  }

  lemma FactsAfterSequence(ks: set<Key>, h: History, nextId: nat, id: nat, err: int)
    requires KeyFacts(ks, h, nextId, Some(id)) && (Fs, id) !in ks && id < nextId
    requires forall k :: k in ks ==> !IsProxy(k.0)
    requires OthersAreOver(h, Some(id)) && SequenceIsOver(Then(h, Ended(Fs, id, err)), id)
    ensures KeyFacts(ks, Then(h, Ended(Fs, id, err)), nextId, None)
    ensures OthersAreOver(Then(h, Ended(Fs, id, err)), None)
  {
    var h1 := Then(h, Ended(Fs, id, err));
    assert EndedKeys(h1) == EndedKeys(h) + {(Fs, id)};
    forall x | x in AdmittedFs(h1) ensures (Fs, x) in ks || (Fs, x) in EndedKeys(h1) {
      assert x in AdmittedFs(h);
    }
  }

  lemma DueEndIsOver(m: Mode, h: History, id: nat, err: int, e: int)
    requires EndIsDue(m, h, Fs, id, err) && m.Ordered? && id in Barriers(h)
    ensures SequenceIsOver(Then(h, Ended(Fs, id, e)), id)
  {
  }

  lemma KeysAfterEnd(q: Queue, ks: set<Key>, k: Key, err: int)
    requires KeysOk(q, ks) && k in ks && !IsProxy(k.0)
    ensures KeysOk(Log(q, Ended(k.0, k.1, err)), ks - {k})
  {
    FactsAfterEnd(ks, q.h, q.nextId, Cur(q), k, err);
  }

  /** A phase ends and others remain. */
  lemma SequenceAdvances(m: Mode, ks: set<Key>, s: set<Phase>, orig: Request, h: History, k: Kind, err: int)
    requires SequenceOk(m, ks, s, orig, h) && IsProxy(k) && (k, orig.id) in ks
    ensures PhaseOf(k) !in s
    ensures CurSeq(s + {PhaseOf(k)}) != Done ==>
              SequenceOk(m, ks - {(k, orig.id)}, s + {PhaseOf(k)}, orig, Then(h, Ended(k, orig.id, err)))
  {
  }

  /** The last phase ends: the end of the barrier is due. */
  lemma SequenceCloses(m: Mode, ks: set<Key>, s: set<Phase>, orig: Request, h: History, k: Kind, err: int)
    requires SequenceOk(m, ks, s, orig, h) && IsProxy(k) && (k, orig.id) in ks
    requires CurSeq(s + {PhaseOf(k)}) == Done
    ensures var h1 := Then(h, Ended(k, orig.id, err)); EndIsDue(m, h1, Fs, orig.id, SequenceError(h1))
    ensures forall p :: IsProxy(p) ==> (p, orig.id) !in ks - {(k, orig.id)}
  {
  }

  /** While older requests drain, the barrier proxy is on the list: the first entry that
      elv_completed_request reads is a real request. */
  lemma DrainingListIsNotEmpty(q: Queue)
    requires Unique(q) && Shapes(q) && Gated(q) && KeysOk(q, Keys(q))
    requires Active(q) && CurSeq(q.ordseq) == Drain
    ensures exists r :: r in q.list && r.kind.BarRq?
    ensures q.list != [] && Bar !in q.ordseq
  {
    var k := (BarRq, q.orig.value.id);
    assert k in Keys(q);
    assert !Reached(q.ordseq, Bar);
    assert forall r :: r in q.elv + q.driver ==> KeyOf(r) != k;
    var r :| r in q.list && KeyOf(r) == k;
  }

  /** r has left list and driver and its end is on record; the hooks have not yet run. */
  function Dropped(q: Queue, r: Request, err: int): Queue {
    Log(q.(list := if r in q.list then Remove(q.list, r) else q.list,
           driver := q.driver - {r},
           inFlight := if r in q.driver && Accounted(r) then q.inFlight - 1 else q.inFlight),
        Ended(r.kind, r.id, err))
  }

  lemma ListedIsNotDriven(q: Queue, r: Request)
    requires Unique(q) && r in q.list
    ensures r !in q.driver
  {
    assert KeyOf(r) in ListKeys(q.list);
    assert r in q.driver ==> KeyOf(r) in SetKeys(q.elv + q.driver);
  }

  lemma PlacesAreApart(q: Queue, r: Request)
    requires Unique(q) && (r in q.list || r in q.driver)
    ensures r in q.list <==> r !in q.driver
  {
    if r in q.list { ListedIsNotDriven(q, r); }
  }

  lemma EndRequestDrops(q: Queue, r: Request, err: int)
    requires (r in q.list && r !in q.driver) || (r in q.driver && r !in q.list)
    ensures EndRequest(q, r, err) ==
            var q1 := DrainCheck(Dropped(q, r, err));
            if IsProxy(r.kind) then CompleteSeq(q1, PhaseOf(r.kind), err) else q1
  {
    hide CompleteSeq, DrainCheck;
    if r in q.list {
      assert q.driver + {r} - {r} == q.driver - {r} == q.driver;
    }
    var q1 := if r in q.list then Dequeue(q, r) else q;
    var q2 := Log(q1.(driver := q1.driver - {r}), Ended(r.kind, r.id, err));
    assert (if Accounted(r) then q2.(inFlight := q2.inFlight - 1) else q2) == Dropped(q, r, err);
  }

  lemma DroppedIsUnique(q: Queue, r: Request, err: int)
    requires Unique(q) && (r in q.list || r in q.driver)
    ensures Unique(Dropped(q, r, err)) && Keys(Dropped(q, r, err)) == Keys(q) - {KeyOf(r)}
    ensures KeyOf(r) in Keys(q)
    ensures forall x :: Held(Dropped(q, r, err), x) ==> Held(q, x)
    ensures forall x :: x in Dropped(q, r, err).list ==> x in q.list
  {
    PlacesAreApart(q, r);
    EndRequestDrops(q, r, err);
    if r in q.list {
      DequeueMoves(q, r);
      assert KeyOf(r) in ListKeys(q.list);
      DropMoves(Dequeue(q, r), r, Dropped(q, r, err));
      RemovedMembers(q.list, r);
    } else {
      assert KeyOf(r) in SetKeys(q.elv + q.driver);
      DropMoves(q, r, Dropped(q, r, err));
    }
  }

  lemma DroppedIsCounted(q: Queue, r: Request, err: int)
    requires Unique(q) && Shapes(q) && Counted(q) && (r in q.list || r in q.driver)
    ensures Counted(Dropped(q, r, err))
  {
    PlacesAreApart(q, r);
    EndRequestDrops(q, r, err);
    if r in q.driver {
      CountDrop(q, r);
    } else {
      assert q.driver - {r} == q.driver;
    }
  }

  /** An ordinary request leaves; everything but the closing of the drain. */
  lemma DroppedOrdinary(q: Queue, r: Request, err: int)
    requires PhaseInv(q) && (r in q.list || r in q.driver)
    requires !IsProxy(r.kind) && !IsQueuedBarrier(r)
    ensures PhaseInv(Dropped(q, r, err))
  {
    var d := Dropped(q, r, err);
    DroppedIsUnique(q, r, err);
    DroppedIsCounted(q, r, err);
    DroppedGated(q, r, err);
    ShapesDepend(q, d);
    KeysAfterEnd(q, Keys(q), KeyOf(r), err);
    assert Held(q, r);
  }

  lemma KeysAfterDrain(q: Queue, ks: set<Key>)
    requires Active(q) && KeysOk(q, ks) && Bar !in q.ordseq
    ensures KeysOk(q.(ordseq := q.ordseq + {Drain}), ks)
  {
  }

  lemma DrainCheckSets(q: Queue)
    requires Unique(q) && Shapes(q) && Gated(q) && KeysOk(q, Keys(q))
    ensures DrainCheck(q) == q || (Active(q) && DrainIsOver(q) && DrainCheck(q) == q.(ordseq := q.ordseq + {Drain}))
    ensures DrainIsOver(q) ==> Bar !in q.ordseq
  {
    if Active(q) && CurSeq(q.ordseq) == Drain {
      DrainingListIsNotEmpty(q);
    }
  }

  lemma DrainCheckKeeps(q: Queue)
    requires PhaseInv(q)
    ensures PhaseInv(DrainCheck(q))
  {
    DrainCheckSets(q);
    if DrainIsOver(q) {
      KeysAfterDrain(q, Keys(q));
      var q1 := q.(ordseq := q.ordseq + {Drain});
      assert Keys(q1) == Keys(q);
    }
  }

  lemma OrdinaryEnd(q: Queue, r: Request, err: int)
    requires PhaseInv(q) && (r in q.list || r in q.driver)
    requires !IsProxy(r.kind) && !IsQueuedBarrier(r)
    ensures PhaseInv(EndRequest(q, r, err))
  {
    PlacesAreApart(q, r);
    EndRequestDrops(q, r, err);
    DroppedOrdinary(q, r, err);
    DrainCheckKeeps(Dropped(q, r, err));
  }

  lemma KeyIsListed(q: Queue, r: Request)
    requires r in q.list || r in q.driver
    ensures KeyOf(r) in Keys(q)
  {
  }

  /** The turn of a proxy comes after the drain, in every mode. */
  lemma ProxyIsOfSequence(q: Queue, ks: set<Key>, k: Key)
    requires Gated(q) && KeysOk(q, ks) && k in ks && IsProxy(k.0)
    requires q.mode.Ordered? && !q.mode.tag ==> Reached(q.ordseq, PhaseOf(k.0))
    ensures Active(q) && Drain in q.ordseq && q.orig.Some? && k.1 == q.orig.value.id
  {
  }

  lemma NoDrainCheck(q: Queue)
    requires Drain in q.ordseq
    ensures DrainCheck(q) == q
  {
  }

  lemma CompleteSeqGated(q: Queue, p: Phase, err: int)
    requires Gated(q) && Active(q) && Drain in q.ordseq && q.orig.Some?
    ensures Gated(CompleteSeq(q, p, err))
  {
  }

  lemma DroppedGated(q: Queue, r: Request, err: int)
    requires Unique(q) && Gated(q) && (r in q.list || r in q.driver)
    ensures Gated(Dropped(q, r, err))
  {
    DroppedIsUnique(q, r, err);
    forall x | Live(Dropped(q, r, err), x) ensures Live(q, x) { }
  }

  lemma ShapesDepend(q: Queue, q1: Queue)
    requires Shapes(q) && Barriers(q1.h) == Barriers(q.h)
    requires q1.elv == q.elv && q1.driver <= q.driver && forall x :: x in q1.list ==> x in q.list
    ensures Shapes(q1)
  {
  }

  lemma OutstandingIsDue(m: Mode, ks: set<Key>, s: set<Phase>, orig: Request, h: History, k: Kind, err: int, n: nat, cur: Option<nat>)
    requires KeyFacts(ks, h, n, cur) && SequenceOk(m, ks, s, orig, h) && IsProxy(k) && (k, orig.id) in ks
    ensures EndIsDue(m, h, k, orig.id, err)
    ensures orig.id in Sequences(h) && orig.id < n && (Fs, orig.id) !in ks && orig.id in Barriers(h) && m.Ordered?
    ensures forall x :: x in ks && IsProxy(x.0) ==> cur == Some(x.1)
  {
  }

  lemma SameBarriers(h: History, e: Event)
    requires e.Ended?
    ensures Barriers(Then(h, e)) == Barriers(h)
  {
  }

  /** CompleteSeq on a state d whose proxy of kind k has just left q: its whole effect. */
  lemma PhaseCompletes(q: Queue, d: Queue, ks: set<Key>, k: Kind, err: int)
    requires Active(q) && q.orig.Some? && KeysOk(q, ks) && IsProxy(k) && (k, q.orig.value.id) in ks
    requires d.mode == q.mode && d.ordseq == q.ordseq && d.orig == q.orig && d.nextId == q.nextId
    requires d.bug == q.bug && d.orderr == q.orderr == SequenceError(q.h) && EndsAreDue(q.mode, q.h)
    requires d.h == Then(q.h, Ended(k, q.orig.value.id, err))
    ensures var q1 := CompleteSeq(d, PhaseOf(k), err);
            && KeysOk(q1, ks - {(k, q.orig.value.id)}) && q1.bug == q.bug
            && q1.orderr == SequenceError(q1.h) && EndsAreDue(q1.mode, q1.h)
  {
    hide EndedKeys, Barriers, AdmittedFs, KeyFacts, OthersAreOver, SequenceIsOver, SequenceOk;
    var orig := q.orig.value;
    var ks1 := ks - {(k, orig.id)};
    OutstandingIsDue(q.mode, ks, q.ordseq, orig, q.h, k, err, q.nextId, Cur(q));
    FactsAfterEnd(ks, q.h, q.nextId, Cur(q), (k, orig.id), err);
    SequenceAdvances(q.mode, ks, q.ordseq, orig, q.h, k, err);
    if CurSeq(q.ordseq + {PhaseOf(k)}) == Done {
      SequenceCloses(q.mode, ks, q.ordseq, orig, q.h, k, err);
      SameBarriers(q.h, Ended(k, orig.id, err));
      DueEndIsOver(q.mode, d.h, orig.id, SequenceError(d.h), FirstError(q.orderr, err));
      FactsAfterSequence(ks1, d.h, q.nextId, orig.id, FirstError(q.orderr, err));
    }
  }

  lemma ProxyEndEquation(q: Queue, r: Request, err: int)
    requires Unique(q) && Gated(q) && KeysOk(q, Keys(q)) && (r in q.list || r in q.driver) && IsProxy(r.kind)
    requires q.mode.Ordered? && !q.mode.tag ==> Reached(q.ordseq, PhaseOf(r.kind))
    ensures KeyOf(r) in Keys(q) && Active(q) && Drain in q.ordseq && Cur(q) == Some(r.id)
    ensures EndRequest(q, r, err) == CompleteSeq(Dropped(q, r, err), PhaseOf(r.kind), err)
  {
    KeyIsListed(q, r);
    ProxyIsOfSequence(q, Keys(q), KeyOf(r));
    PlacesAreApart(q, r);
    EndRequestDrops(q, r, err);
    NoDrainCheck(Dropped(q, r, err));
  }

  lemma CompleteSeqPlaces(q: Queue, p: Phase, err: int)
    ensures var q1 := CompleteSeq(q, p, err);
            && q1.elv == q.elv && q1.list == q.list && q1.driver == q.driver && q1.inFlight == q.inFlight
            && Keys(q1) == Keys(q) && Barriers(q1.h) == Barriers(q.h)
            && (Unique(q1) <==> Unique(q)) && (Counted(q1) <==> Counted(q))
  {
  }

  lemma ProxyEnd(q: Queue, r: Request, err: int)
    requires PhaseInv(q) && (r in q.list || r in q.driver) && IsProxy(r.kind)
    requires q.mode.Ordered? && !q.mode.tag ==> Reached(q.ordseq, PhaseOf(r.kind))
    ensures PhaseInv(EndRequest(q, r, err))
  {
    hide KeyFacts, SequenceOk, EndRequest;
    var d := Dropped(q, r, err);
    ProxyEndEquation(q, r, err);
    DroppedIsUnique(q, r, err);
    DroppedIsCounted(q, r, err);
    CompleteSeqPlaces(d, PhaseOf(r.kind), err);
    PhaseCompletes(q, d, Keys(q), r.kind, err);
    DroppedGated(q, r, err);
    CompleteSeqGated(d, PhaseOf(r.kind), err);
    ShapesDepend(q, CompleteSeq(d, PhaseOf(r.kind), err));
  }

  // ---------- beginning a sequence ----------

  lemma RunKeys(m: Mode, orig: Request)
    requires m.Ordered?
    ensures ListKeys(ProxyRun(m, orig)) ==
            {(BarRq, orig.id)} + (if m.pre then {(PreFlushRq, orig.id)} else {})
            + (if NeedsPost(m, orig) then {(PostFlushRq, orig.id)} else {})
    ensures Distinct(ProxyRun(m, orig))
    ensures forall r :: r in ProxyRun(m, orig) ==> IsProxy(r.kind) && !r.started && ListShape(r) && r.id == orig.id
  {
    assert Proxy(orig) in ProxyRun(m, orig);
    assert m.pre ==> Flush(PreFlushRq, orig) in ProxyRun(m, orig);
    assert NeedsPost(m, orig) ==> Flush(PostFlushRq, orig) in ProxyRun(m, orig);
  }

  lemma DistinctTail(s: seq<Request>)
    requires s != [] && Distinct(s)
    ensures Distinct(s[1..]) && ListKeys(s[1..]) == ListKeys(s) - {KeyOf(s[0])}
    ensures forall x :: x in s <==> x == s[0] || x in s[1..]
  {
  }

  lemma StartMoves(q: Queue)
    requires Unique(q) && q.mode.Ordered? && q.list != []
    requires forall k :: k in Keys(q) ==> !IsProxy(k.0)
    ensures var q1 := StartOrdered(q);
            && Unique(q1)
            && Keys(q1) == Keys(q) - {KeyOf(q.list[0])} + ListKeys(ProxyRun(q.mode, q.list[0]))
  {
    var q1 := StartOrdered(q);
    var orig := q.list[0];
    var run, rest := ProxyRun(q.mode, orig), q.list[1..];
    assert q1.list == run + rest && q1.elv == q.elv && q1.driver == q.driver;
    hide StartOrdered, ProxyRun;
    RunKeys(q.mode, orig);
    DistinctTail(q.list);
    assert KeyOf(orig) in ListKeys(q.list);
    forall i | 0 <= i < |rest| ensures KeyOf(rest[i]) in Keys(q) {
      assert rest[i] in rest;
      assert KeyOf(rest[i]) in ListKeys(rest);
    }
    forall i | 0 <= i < |run| ensures IsProxy(run[i].kind) {
      assert run[i] in run;
    }
    assert Distinct(q1.list);
    assert ListKeys(q1.list) == ListKeys(run) + ListKeys(rest);
  }

  lemma FactsAfterStart(ks: set<Key>, h: History, nextId: nat, orig: Request, run: set<Key>, pre: bool, post: bool)
    requires KeyFacts(ks, h, nextId, None) && KeyOf(orig) in ks && orig.kind.Fs?
    requires forall k :: k in run ==> IsProxy(k.0) && k.1 == orig.id
    ensures KeyFacts(ks - {KeyOf(orig)} + run, Then(h, Begun(orig.id, pre, post)), nextId, Some(orig.id))
    ensures OthersAreOver(h, None) ==> OthersAreOver(Then(h, Begun(orig.id, pre, post)), Some(orig.id))
  {
    var ks1, h1 := ks - {KeyOf(orig)} + run, Then(h, Begun(orig.id, pre, post));
    assert Sequences(h1) == Sequences(h)[orig.id := (pre, post)];
    assert forall k :: k in ks1 ==> k in ks || (IsProxy(k.0) && k.1 == orig.id);
    assert forall k :: k in ks && k != KeyOf(orig) ==> k in ks1;
  }

  lemma SequenceStarts(m: Mode, ks: set<Key>, orig: Request, idle: bool, h: History)
    requires m.Ordered? && IsQueuedBarrier(orig) && KeyOf(orig) in ks && orig.id in Barriers(h)
    requires ks !! EndedKeys(h) && forall k :: k in ks ==> !IsProxy(k.0)
    ensures SequenceOk(m, ks - {KeyOf(orig)} + ListKeys(ProxyRun(m, orig)), SkippedPhases(m, orig, idle), orig,
                       Then(h, Begun(orig.id, m.pre, NeedsPost(m, orig))))
  {
    RunKeys(m, orig);
    var s := SkippedPhases(m, orig, idle);
    assert Bar !in s && (Pre !in s <==> m.pre) && (Post !in s <==> NeedsPost(m, orig));
  }

  lemma StartKeysOk(q: Queue, ks: set<Key>, ks1: set<Key>)
    requires KeysOk(q, ks) && q.mode.Ordered? && q.list != [] && !Active(q) && IsQueuedBarrier(q.list[0])
    requires KeyOf(q.list[0]) in ks && q.list[0].id in Barriers(q.h)
    requires ks1 == ks - {KeyOf(q.list[0])} + ListKeys(ProxyRun(q.mode, q.list[0]))
    ensures KeysOk(StartOrdered(q), ks1)
  {
    var orig := q.list[0];
    RunKeys(q.mode, orig);
    FactsAfterStart(ks, q.h, q.nextId, orig, ListKeys(ProxyRun(q.mode, orig)), q.mode.pre, NeedsPost(q.mode, orig));
    SequenceStarts(q.mode, ks, orig, q.inFlight == 0, q.h);
  }

  lemma StartShapes(q: Queue)
    requires Shapes(q) && Distinct(q.list) && q.mode.Ordered? && q.list != []
    ensures Shapes(StartOrdered(q))
    ensures forall r :: r in StartOrdered(q).list && r.started ==> r in q.list
  {
    var q1 := StartOrdered(q);
    RunKeys(q.mode, q.list[0]);
    DistinctTail(q.list);
    forall r | r in q1.list ensures r in ProxyRun(q.mode, q.list[0]) || r in q.list { }
    forall r | Held(q1, r) && r.kind.Fs? ensures Held(q, r) { }
  }

  lemma NoProxies(q: Queue)
    requires KeysOk(q, Keys(q)) && !Active(q)
    ensures forall k :: k in Keys(q) ==> !IsProxy(k.0)
    ensures forall r :: r in q.list || r in q.driver ==> !IsProxy(r.kind)
  {
    forall r | r in q.list || r in q.driver ensures !IsProxy(r.kind) { KeyIsListed(q, r); }
  }

  lemma StartGated(q: Queue)
    requires Unique(q) && Shapes(q) && KeysOk(q, Keys(q)) && q.mode.Ordered? && q.list != [] && !Active(q)
    ensures Gated(StartOrdered(q))
  {
    var q1 := StartOrdered(q);
    NoProxies(q);
    StartShapes(q);
    forall r | Live(q1, r) ensures !IsProxy(r.kind) { }
  }

  lemma StartKeeps(q: Queue)
    requires PhaseInv(q) && q.mode.Ordered? && q.list != [] && !Active(q) && IsQueuedBarrier(q.list[0])
    ensures PhaseInv(StartOrdered(q))
  {
    var orig := q.list[0];
    NoProxies(q);
    StartMoves(q);
    KeyIsListed(q, orig);
    assert Held(q, orig);
    StartKeysOk(q, Keys(q), Keys(StartOrdered(q)));
    StartShapes(q);
    StartGated(q);
  }

  // ---------- polling ----------

  lemma RefuseDrops(q: Queue)
    requires Unique(q) && Shapes(q) && q.list != []
    ensures Unique(Refuse(q)) && Shapes(Refuse(q)) && Keys(Refuse(q)) == Keys(q) - {KeyOf(q.list[0])}
  {
    hide Shapes;
    var r := q.list[0];
    var d, q1 := Dropped(q, r, -95), Refuse(q);
    PlacesAreApart(q, r);
    DroppedIsUnique(q, r, -95);
    assert q1.elv == d.elv && q1.list == d.list && q1.driver == d.driver == q.driver;
    ShapesDepend(q, q1);
  }

  lemma RefuseFacts(q: Queue, ks: set<Key>)
    requires KeysOk(q, ks) && q.list != [] && !Active(q) && q.list[0].kind.Fs? && KeyOf(q.list[0]) in ks && q.mode.Unordered?
    ensures KeysOk(Refuse(q), ks - {KeyOf(q.list[0])}) && EndIsDue(q.mode, q.h, Fs, q.list[0].id, -95)
  {
    KeysAfterEnd(q, ks, KeyOf(q.list[0]), -95);
    assert ks !! EndedKeys(q.h);
    hide KeyFacts, OthersAreOver, SequenceOk;
  }

  lemma RefuseKeeps(q: Queue)
    requires PhaseInv(q) && q.list != [] && !Active(q) && IsQueuedBarrier(q.list[0]) && q.mode.Unordered?
    ensures PhaseInv(Refuse(q))
  {
    RefuseDrops(q);
    KeyIsListed(q, q.list[0]);
    RefuseFacts(q, Keys(q));
    hide Unique, Shapes, Keys, KeysOk, EndIsDue;
  }

  lemma MarkShapes(q: Queue)
    requires Unique(q) && Shapes(q) && Gated(q) && q.list != [] && !IsQueuedBarrier(q.list[0])
    requires IsProxy(q.list[0].kind) && q.mode.Ordered? && !q.mode.tag
             ==> Reached(q.ordseq, PhaseOf(q.list[0].kind))
    ensures Shapes(MarkStarted(q)) && Gated(MarkStarted(q))
  {
    var q1 := MarkStarted(q);
    assert Held(q, q.list[0]);
    forall r | r in q1.list ensures r in q.list || r == q.list[0].(started := true) { }
    forall r | Live(q1, r) ensures Live(q, r) || r == q.list[0].(started := true) { }
  }

  lemma MarkKeeps(q: Queue)
    requires PhaseInv(q) && q.list != [] && !IsQueuedBarrier(q.list[0])
    requires IsProxy(q.list[0].kind) && q.mode.Ordered? && !q.mode.tag
             ==> Reached(q.ordseq, PhaseOf(q.list[0].kind))
    ensures PhaseInv(MarkStarted(q))
  {
    MarkMoves(q);
    MarkShapes(q);
    assert KeysOk(MarkStarted(q), Keys(q));
  }

  /** The head may be shown to the driver. */
  predicate HeadIsDue(q: Queue)
    requires q.list != []
  {
    && !IsQueuedBarrier(q.list[0])
    && (IsProxy(q.list[0].kind) && q.mode.Ordered? && !q.mode.tag ==> Reached(q.ordseq, PhaseOf(q.list[0].kind)))
  }

  lemma IssueFacts(q: Queue, ks: set<Key>, r: Request)
    requires KeysOk(q, ks)
    ensures KeysOk(Log(q, IssueOf(r)), ks)
  {
    var h, h1 := q.h, Log(q, IssueOf(r)).h;
    assert EndedKeys(h1) == EndedKeys(h) && Barriers(h1) == Barriers(h) && Sequences(h1) == Sequences(h)
        && AdmittedFs(h1) == AdmittedFs(h);
  }

  lemma IssueKeeps(q: Queue, r: Request)
    requires PhaseInv(q)
    ensures PhaseInv(Log(q, IssueOf(r)))
  {
    IssueFacts(q, Keys(q), r);
    hide KeysOk;
    var q1 := Log(q, IssueOf(r));
    assert Keys(q1) == Keys(q);
    ShapesDepend(q, q1);
    assert Gated(q1);
  }

  lemma KillKeeps(q: Queue)
    requires PhaseInv(q) && q.list != [] && HeadIsDue(q)
    ensures PhaseInv(EndRequest(q, q.list[0], -5))
  {
    if IsProxy(q.list[0].kind) { ProxyEnd(q, q.list[0], -5); } else { OrdinaryEnd(q, q.list[0], -5); }
  }

  lemma OfferKeeps(q: Queue, prep: Prep)
    requires PhaseInv(q) && q.list != [] && HeadIsDue(q)
    ensures PhaseInv(Offer(q, prep))
  {
    hide PhaseInv, EndRequest;
    var r := q.list[0];
    var q1 := Log(q, IssueOf(r));
    IssueKeeps(q, r);
    if IsEmptyBarrier(r) {
      ProxyEnd(q1, r, 0);
    } else {
      MarkKeeps(q1);
      if prep.Kill? { KillKeeps(MarkStarted(q1)); }
    }
  }

  /** In drain mode, a further barrier that has come to the head of the list during a
      sequence differs in colour from the one in progress. */
  predicate NextBarrierDiffers(q: Queue) {
    Active(q) && q.mode.Ordered? && !q.mode.tag && q.list != [] && IsQueuedBarrier(q.list[0]) && q.orig.Some?
    ==> q.list[0].color != q.orig.value.color
  }

  /** What blk_do_ordered lets through is due. */
  lemma PassIsDue(q: Queue)
    requires Shapes(q) && Gated(q) && KeysOk(q, Keys(q)) && q.list != [] && DoOrdered(q).1 == Pass
    requires NextBarrierDiffers(q)
    ensures var q1 := DoOrdered(q).0; q1.list != [] && HeadIsDue(q1)
  {
    var r := q.list[0];
    KeyIsListed(q, r);
    assert ListShape(r);
    if !Active(q) {
      if IsFs(r) && r.hard { StartedHeadIsDue(q); }
    } else if IsProxy(r.kind) && !q.mode.tag {
      LowestIsReached(q.ordseq, PhaseOf(r.kind));
    }
  }

  lemma StartedHeadIsDue(q: Queue)
    requires q.list != [] && q.mode.Ordered? && (q.mode.tag || q.inFlight == 0)
    ensures StartOrdered(q).list != [] && HeadIsDue(StartOrdered(q))
  {
  }

  lemma LowestIsReached(s: set<Phase>, p: Phase)
    requires Started in s && p !in s && Rank(p) <= Rank(CurSeq(s))
    ensures Reached(s, p)
  {
  }

  lemma WarnKeeps(q: Queue, w: bool)
    requires PhaseInv(q)
    ensures PhaseInv(q.(warned := w))
  {
    var q1 := q.(warned := w);
    assert Keys(q1) == Keys(q);
    ShapesDepend(q, q1);
    assert Gated(q1);
  }

  lemma DoOrderedKeeps(q: Queue)
    requires PhaseInv(q) && q.list != []
    ensures PhaseInv(DoOrdered(q).0)
  {
    var r := q.list[0];
    if !Active(q) {
      if IsFs(r) && r.hard {
        NoProxies(q);
        if q.mode.Ordered? { StartKeeps(q); } else { RefuseKeeps(q); }
      }
    } else {
      WarnKeeps(q, DoOrdered(q).0.warned);
    }
  }

  lemma PollKeeps(q: Queue, prep: Prep)
    requires PhaseInv(q) && q.list != [] && NextBarrierDiffers(q)
    ensures PhaseInv(Poll(q, prep))
  {
    DoOrderedKeeps(q);
    if DoOrdered(q).1 == Pass {
      PassIsDue(q);
      OfferKeeps(DoOrdered(q).0, prep);
    }
  }

  // ---------- the other steps ----------

  lemma SortedAdmitMoves(q: Queue, r: Request, q1: Queue)
    requires Unique(q) && KeyOf(r) !in Keys(q)
    requires q1.elv == q.elv + {r} && q1.list == q.list && q1.driver == q.driver
    ensures Unique(q1) && Keys(q1) == Keys(q) + {KeyOf(r)}
  {
  }

  lemma AdmitMoves(q: Queue, s: Spec)
    requires Unique(q) && (s.kind, q.nextId) !in Keys(q)
    ensures Unique(Admit(q, s)) && Keys(Admit(q, s)) == Keys(q) + {(s.kind, q.nextId)}
    ensures forall x :: x in Admit(q, s).list ==> x in q.list || x == NewRequest(q, s)
  {
    var q1 := Admit(q, s);
    var r := NewRequest(q, s);
    if EffectiveWhere(s).Sort? {
      SortedAdmitMoves(q, r, q1);
    } else {
      InsertedMembers(q.list, if EffectiveWhere(s).Front? then 0 else |q.list|, r);
    }
  }

  lemma FactsAfterAdmit(ks: set<Key>, h: History, nextId: nat, cur: Option<nat>, k: Kind, hard: bool, range: Range)
    requires KeyFacts(ks, h, nextId, cur) && !IsProxy(k)
    ensures KeyFacts(ks + {(k, nextId)}, Then(h, Admitted(nextId, k, hard, range)), nextId + 1, cur)
    ensures OthersAreOver(h, cur) ==> OthersAreOver(Then(h, Admitted(nextId, k, hard, range)), cur)
  {
    var h1 := Then(h, Admitted(nextId, k, hard, range));
    assert EndedKeys(h1) == EndedKeys(h) && Sequences(h1) == Sequences(h);
    assert forall b :: b in Barriers(h1) ==> b in Barriers(h) || b == nextId;
    assert forall b :: b in AdmittedFs(h1) ==> b in AdmittedFs(h) || (b == nextId && k.Fs?);
  }

  lemma SequenceAfterAdmit(m: Mode, ks: set<Key>, s: set<Phase>, orig: Request, h: History, id: nat, k: Kind, hard: bool, range: Range)
    requires SequenceOk(m, ks, s, orig, h) && !IsProxy(k) && id != orig.id
    ensures SequenceOk(m, ks + {(k, id)}, s, orig, Then(h, Admitted(id, k, hard, range)))
  {
  }

  lemma AdmitFields(q: Queue, s: Spec)
    ensures var q1 := Admit(q, s);
            && q1.mode == q.mode && q1.ordseq == q.ordseq && q1.orig == q.orig
            && q1.nextId == q.nextId + 1 && q1.h == Then(q.h, Admitted(q.nextId, s.kind, s.hard, AskedBy(s)))
  {
  }

  lemma AdmitKeysOk(q: Queue, s: Spec, ks: set<Key>)
    requires KeysOk(q, ks) && !IsProxy(s.kind)
    ensures KeysOk(Admit(q, s), ks + {(s.kind, q.nextId)})
  {
    FactsAfterAdmit(ks, q.h, q.nextId, Cur(q), s.kind, s.hard, AskedBy(s));
    AdmitFields(q, s);
    hide KeyFacts, OthersAreOver, Admit;
    if Active(q) {
      SequenceAfterAdmit(q.mode, ks, q.ordseq, q.orig.value, q.h, q.nextId, s.kind, s.hard, AskedBy(s));
      hide SequenceOk;
    }
  }

  lemma HeldIsOld(q: Queue, r: Request)
    requires KeysOk(q, Keys(q)) && Held(q, r)
    ensures r.id < q.nextId && KeyOf(r) in Keys(q)
  {
  }

  lemma AdmitShapes(q: Queue, s: Spec)
    requires Unique(q) && Shapes(q) && KeysOk(q, Keys(q)) && Enabled(q, OpAdmit(s))
    requires forall x :: x in Admit(q, s).list ==> x in q.list || x == NewRequest(q, s)
    ensures Shapes(Admit(q, s))
  {
    var q1 := Admit(q, s);
    var r := NewRequest(q, s);
    assert q.nextId !in Barriers(q.h);
    assert Barriers(q1.h) == Barriers(q.h) + (if s.hard then [q.nextId] else []);
    forall x | Held(q1, x) && x.kind.Fs? ensures x.hard <==> x.id in Barriers(q1.h) {
      if Held(q, x) { HeldIsOld(q, x); }
    }
  }

  lemma AdmitKeeps(q: Queue, s: Spec)
    requires PhaseInv(q) && Enabled(q, OpAdmit(s))
    ensures PhaseInv(Admit(q, s))
  {
    AdmitMoves(q, s);
    AdmitKeysOk(q, s, Keys(q));
    AdmitShapes(q, s);
    var q1 := Admit(q, s);
    forall x | Live(q1, x) ensures Live(q, x) { }
  }

  lemma DispatchShapes(q: Queue, r: Request, p: nat, q1: Queue)
    requires Unique(q) && Shapes(q) && Gated(q) && r in q.elv && p <= |q.list|
    requires q1 == q.(elv := q.elv - {r}, list := InsertAt(q.list, p, r), endSector := q1.endSector, boundary := q1.boundary)
    ensures Shapes(q1) && Gated(q1)
  {
    forall x | x in q1.list ensures x in q.list || x == r { }
    assert Held(q, r);
    forall x | Held(q1, x) ensures Held(q, x) { }
    forall x | Live(q1, x) ensures Live(q, x) { }
  }

  lemma DispatchKeeps(q: Queue, r: Request, atTail: bool)
    requires PhaseInv(q) && r in q.elv
    ensures PhaseInv(Step(q, OpDispatch(r, atTail)))
  {
    var q1 := Step(q, OpDispatch(r, atTail));
    var p := if atTail then |q.list| else SortPos(q.list, r, q.endSector);
    assert q1.list == InsertAt(q.list, p, r);
    DispatchMoves(q, r, p, q1);
    DispatchShapes(q, r, p, q1);
  }

  lemma DequeueShapes(q: Queue, r: Request)
    requires Unique(q) && Shapes(q) && Gated(q) && r in q.list && r.started
    ensures Shapes(Dequeue(q, r)) && Gated(Dequeue(q, r))
  {
    var q1 := Dequeue(q, r);
    RemovedMembers(q.list, r);
    assert ListShape(r);
    forall x | Held(q1, x) ensures Held(q, x) { }
    forall x | Live(q1, x) ensures Live(q, x) { }
  }

  lemma DequeueKeeps(q: Queue, r: Request)
    requires PhaseInv(q) && r in q.list && r.started
    ensures PhaseInv(Dequeue(q, r))
  {
    DequeueMoves(q, r);
    PlacesAreApart(q, r);
    EndRequestDrops(q, r, 0);
    CountDequeue(q, r);
    DequeueShapes(q, r);
  }

  lemma RequeueKeeps(q: Queue, r: Request)
    requires PhaseInv(q) && r in q.driver
    ensures PhaseInv(Requeue(q, r))
  {
    var q1 := Requeue(q, r);
    var p := if Active(q) then RequeuePos(q.list, q.orig, ReqSeq(q.orig, Requeued(r))) else 0;
    RequeueMoves(q, r, p, q1);
    CountDrop(q, r);
    assert KeysOk(q1, Keys(q));
    RequeueShapes(q, r, p, q1);
  }

  lemma RequeueShapes(q: Queue, r: Request, p: nat, q1: Queue)
    requires Unique(q) && Shapes(q) && Gated(q) && r in q.driver && p <= |q.list|
    requires IsProxy(r.kind) ==> KeysOk(q, Keys(q))
    requires q1 == q.(driver := q1.driver, inFlight := q1.inFlight, list := q1.list)
    requires q1.list == InsertAt(q.list, p, Requeued(r)) && q1.driver == q.driver - {r}
    ensures Shapes(q1) && Gated(q1)
  {
    assert Held(q, r);
    forall x | x in q1.list ensures x in q.list || x == Requeued(r) { }
    forall x | Live(q1, x) ensures Live(q, x) { }
  }

  lemma PartialKeeps(q: Queue, err: int)
    requires PhaseInv(q)
    ensures PhaseInv(PartialError(q, err))
  {
    var q1 := PartialError(q, err);
    assert EndedKeys(q1.h) == EndedKeys(q.h) && Sequences(q1.h) == Sequences(q.h) && Barriers(q1.h) == Barriers(q.h);
    assert AdmittedFs(q1.h) == AdmittedFs(q.h);
    assert Keys(q1) == Keys(q) && Cur(q1) == Cur(q);
    ShapesDepend(q, q1);
    assert Gated(q1) by { assert forall r :: Live(q1, r) <==> Live(q, r); }
    assert KeysOk(q1, Keys(q));
  }

  lemma EndKeeps(q: Queue, r: Request, err: int)
    requires PhaseInv(q) && Live(q, r)
    ensures PhaseInv(EndRequest(q, r, err))
  {
    assert DriverShape(r) || ListShape(r);
    if IsProxy(r.kind) {
      KeyIsListed(q, r);
      ProxyEnd(q, r, err);
    } else {
      OrdinaryEnd(q, r, err);
    }
  }

  /** Every step keeps the phase invariant; in drain mode this rests on the colour of the
      next barrier, which the ordering invariant supplies. */
  lemma StepKeepsPhases(q: Queue, op: Op)
    requires PhaseInv(q) && Enabled(q, op) && NextBarrierDiffers(q)
    ensures PhaseInv(Step(q, op))
  {
    match op
    case OpAdmit(s) => AdmitKeeps(q, s);
    case OpDispatch(r, atTail) => DispatchKeeps(q, r, atTail);
    case OpPoll(prep) => PollKeeps(q, prep);
    case OpDequeue(r) => DequeueKeeps(q, r);
    case OpRequeue(r) => RequeueKeeps(q, r);
    case OpEnd(r, err) => EndKeeps(q, r, err);
    case OpPartial(_, err) => PartialKeeps(q, err);
  }
}
