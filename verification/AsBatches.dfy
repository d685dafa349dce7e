/** The anticipatory scheduler's batches (block/as-iosched.c): which direction is served, how long, and
    what happens when it changes. What the anticipation heuristics and the FIFO clocks answer is
    arbitrary; the batch's own clock is the model's. */
module AsBatches {
  import opened Options
  import opened SortTree
  import opened Lanes = AnticipatoryLanes

  /** batch_expire of both directions, in ticks. */
  datatype Tunables = Tunables(readBatch: nat, writeBatch: nat)

  /** batch_data_dir is REQ_SYNC, changed_batch, new_batch, current_write_count, write_batch_count,
      write_batch_idled and current_batch_expires. */
  datatype Batch = Batch(sync: bool, changed: bool, isNew: bool, left: nat, count: nat, idled: bool, expires: nat)

  /** Both directions, the batch, whether the scheduler waits for a request it anticipates, and how
      many requests are dispatched and not completed. */
  datatype State = State(rd: Lane, wr: Lane, b: Batch, antic: bool, inFlight: nat, now: nat)

  datatype Answers = Answers(fifoExpired: bool, fifoExpiredLater: bool, anticipate: bool, anticExpire: bool)

  function Initial(t: Tunables): State {
    var count := if t.writeBatch / 10 < 2 then 2 else t.writeBatch / 10;
    State(Lane([], [], None, 0), Lane([], [], None, 0), Batch(true, false, false, 0, count, false, t.readBatch), false, 0, 0)
  }

  function LaneOf(s: State, d: bool): Lane { if d then s.rd else s.wr }

  function With(s: State, d: bool, l: Lane): State { if d then s.(rd := l) else s.(wr := l) }

  function Oldest(l: Lane): Option<Request> { if l.fifo == [] then None else Some(l.fifo[0]) }

  // ---------- the operations ----------

  /** as_batch_expired. */
  predicate BatchExpired(s: State) {
    !s.b.changed && !s.b.isNew && (s.now > s.b.expires || (!s.b.sync && s.b.left == 0))
  }

  /** A write batch that runs uncontended is not timed. */
  function NotedIdle(s: State): Batch {
    if !s.b.sync && s.rd.fifo == [] && (s.b.left == 0 || s.wr.fifo == []) then s.b.(idled := true) else s.b
  }

  /** The other direction begins, unless it is this one that goes on. */
  function Switched(b: Batch, toReads: bool): Batch {
    if toReads then b.(changed := b.changed || !b.sync, sync := true)
    else b.(changed := b.changed || b.sync, isNew := b.isNew && !b.sync, sync := false, left := b.count, idled := false)
  }

  /** The choice of direction and request of as_dispatch_request. */
  function Select(s: State, t: Tunables, a: Answers): (State, Option<Request>) {
    var anyReads, anyWrites, s0 := s.rd.fifo != [], s.wr.fifo != [], s.(b := NotedIdle(s));
    if (!anyReads && !anyWrites) || s.antic || s.b.changed then (s0, None)
    else
      var running := !(anyReads && anyWrites && BatchExpired(s));
      var l := LaneOf(s, s.b.sync);
      if running && s.b.sync && a.anticExpire && a.fifoExpired && anyReads then (s0, Oldest(l))
      else if running && s.b.sync && a.anticExpire && a.anticipate then (s0.(antic := true), None)
      else if running && l.next.Some? then
        var s1 := if anyReads && !anyWrites then s0.(b := s0.b.(expires := s.now + t.readBatch)) else s0;
        (s1, if a.fifoExpiredLater then Oldest(l) else l.next)
      else
        var toReads := anyReads && !(anyWrites && s.b.sync);
        (s0.(b := Switched(s0.b, toReads)), Oldest(LaneOf(s, toReads)))
  }

  /** as_move_to_dispatch. */
  function MoveToDispatch(s: State, rq: Request, size: nat): State
    requires rq in LaneOf(s, rq.sync).sort
  {
    With(s, rq.sync, Lanes.MoveToDispatch(LaneOf(s, rq.sync), rq, size))
      .(antic := false, inFlight := s.inFlight + 1,
        b := if rq.sync || s.b.left == 0 then s.b else s.b.(left := s.b.left - 1))
  }

  /** A change of batch takes effect once nothing is in flight. */
  function Begun(b: Batch, now: nat, t: Tunables): Batch {
    if !b.changed then b
    else if b.sync then b.(isNew := true, changed := false)
    else b.(expires := now + t.writeBatch, changed := false)
  }

  /** as_dispatch_request, not forced: the new state and the request handed out, if any. */
  function Dispatch(s: State, t: Tunables, a: Answers, size: Request -> nat): (State, Option<Request>) {
    var (s1, rq) := Select(s, t, a);
    if rq == None || (s1.b.changed && s1.inFlight != 0) || rq.value !in LaneOf(s1, rq.value.sync).sort then (s1, None)
    else (MoveToDispatch(s1.(b := Begun(s1.b, s1.now, t)), rq.value, size(rq.value)), rq)
  }

  /** update_write_batch: the next write batch is shorter if this one took too long, longer if it was done early. */
  function Resized(b: Batch, now: nat, t: Tunables): (count: nat)
    ensures count >= 1
  {
    var batch := t.writeBatch;
    var time := if now + batch < b.expires then 0 else now + batch - b.expires;
    var count: int :=
      if time > batch && !b.idled then (if time > 3 * batch then b.count / 2 else b.count - 1)
      else if time < batch && b.left == 0 then (if batch > 3 * time then 2 * b.count else b.count + 1)
      else b.count;
    if count < 1 then 1 else count
  }

  /** as_completed_request, for a request of direction `sync`. */
  function Completed(s: State, t: Tunables, sync: bool): State
    requires s.inFlight > 0
  {
    var b1 := if s.b.changed && s.inFlight == 1
              then s.b.(expires := s.now + (if s.b.sync then t.readBatch else t.writeBatch), changed := false, isNew := s.b.isNew || s.b.sync)
              else s.b;
    var b2 := if b1.isNew && b1.sync == sync
              then b1.(count := Resized(b1, s.now, t), expires := s.now + t.readBatch, isNew := false) else b1;
    s.(b := b2, inFlight := s.inFlight - 1)
  }

  // ---------- runs ----------

  datatype Op = Tick(ticks: nat)
              | Queue(d: bool, lane: Lane, moved: nat)      // requests come, go and merge; `moved` were in the way
              | AnticStop                                   // the wait is over
              | Run(answers: Answers, size: Request -> nat) // as_dispatch_request
              | Done(sync: bool)                            // as_completed_request

  ghost predicate Enabled(s: State, op: Op) {
    match op
    case Queue(d, lane, _) => LaneOk(lane, d)
    case Done(_) => s.inFlight > 0
    case _ => true
  }

  function Step(s: State, t: Tunables, op: Op): State
    requires op.Done? ==> s.inFlight > 0
  {
    match op
    case Tick(n) => s.(now := s.now + n)
    case Queue(d, lane, moved) =>
      With(s, d, lane).(antic := s.antic && moved == 0, inFlight := s.inFlight + moved,
                        b := if d then s.b else s.b.(left := if moved < s.b.left then s.b.left - moved else 0))
    case AnticStop => s.(antic := false)
    case Run(a, size) => Dispatch(s, t, a, size).0
    case Done(sync) => Completed(s, t, sync)
  }

  /** A change of batch waits for something in flight; a new batch is one of reads that has begun. The
      code checks both with WARN_ON. */
  ghost predicate Inv(s: State) {
    && LaneOk(s.rd, true) && LaneOk(s.wr, false)
    && (s.b.changed ==> s.inFlight > 0 && !s.b.isNew)
    && (s.b.isNew ==> s.b.sync)
    && s.b.count >= 1
  }

  /** What is selected is queued, in the direction of the batch. */
  lemma SelectedIsQueued(s: State, t: Tunables, a: Answers)
    requires Inv(s)
    ensures var (s1, rq) := Select(s, t, a);
            && s1.rd == s.rd && s1.wr == s.wr && s1.inFlight == s.inFlight && s1.now == s.now && s1.b.count == s.b.count
            && (s1.b.isNew ==> s1.b.sync && s.b.isNew) && (s1.b.changed ==> !s1.b.isNew)
            && (rq.Some? ==> !s.b.changed && rq.value in LaneOf(s, s1.b.sync).sort && rq.value.sync == s1.b.sync && !s1.antic)
            && (rq == None ==> s1.b.changed == s.b.changed && s1.b.sync == s.b.sync && s1.b.isNew == s.b.isNew && s1.b.expires == s.b.expires)
            && (rq == None ==> s.antic || s.b.changed || (s.rd.fifo == [] && s.wr.fifo == []) || s1.antic)
  {
    LaneFacts(s.rd, true);
    LaneFacts(s.wr, false);
    hide LaneOk;
  }

  lemma DispatchKeeps(s: State, t: Tunables, a: Answers, size: Request -> nat)
    requires Inv(s)
    ensures Inv(Dispatch(s, t, a, size).0)
  {
    SelectedIsQueued(s, t, a);
    var (s1, rq) := Select(s, t, a);
    hide Select, Lanes.MoveToDispatch, LaneOk;
    if rq.Some? && !(s1.b.changed && s1.inFlight != 0) {
      MoveKeeps(s1.(b := Begun(s1.b, s1.now, t)), rq.value, size(rq.value));
    }
  }

  lemma MoveKeeps(s: State, rq: Request, size: nat)
    requires Inv(s) && rq in LaneOf(s, rq.sync).sort
    ensures Inv(MoveToDispatch(s, rq, size))
  {
    hide Lanes.MoveToDispatch, LaneOk;
    DispatchLane(LaneOf(s, rq.sync), rq, size, rq.sync);
  }

  lemma StepKeeps(s: State, t: Tunables, op: Op)
    requires Inv(s) && Enabled(s, op)
    ensures Inv(Step(s, t, op))
  {
    hide LaneOk, Dispatch, Resized;
    match op {
      case Run(a, size) => DispatchKeeps(s, t, a, size);
      case _ =>
    }
  }

  ghost predicate Legal(s: State, t: Tunables, ops: seq<Op>)
    decreases |ops|
  {
    ops == [] || (Enabled(s, ops[0]) && Legal(Step(s, t, ops[0]), t, ops[1..]))
  }

  lemma InitialInv(t: Tunables)
    ensures Inv(Initial(t))
  {
  }

  function RunAll(s: State, t: Tunables, ops: seq<Op>): State
    requires Legal(s, t, ops)
    decreases |ops|
  {
    if ops == [] then s else RunAll(Step(s, t, ops[0]), t, ops[1..])
  }

  lemma {:induction false} RunKeeps(s: State, t: Tunables, ops: seq<Op>)
    requires Inv(s) && Legal(s, t, ops)
    ensures Inv(RunAll(s, t, ops))
    decreases |ops|
  {
    hide Inv, Step;
    if ops != [] {
      StepKeeps(s, t, ops[0]);
      RunKeeps(Step(s, t, ops[0]), t, ops[1..]);
    }
  }

  /** In every run: a pending change of batch has something in flight whose completion ends it, and with
      nothing in flight and no anticipation a dispatch with requests queued hands one out. */
  lemma NeverStuck(t: Tunables, ops: seq<Op>, a: Answers, size: Request -> nat)
    requires Legal(Initial(t), t, ops)
    ensures var s := RunAll(Initial(t), t, ops);
            && (s.b.changed ==> s.inFlight > 0 && !s.b.isNew)
            && (!s.antic && !a.anticipate && s.inFlight == 0 && (s.rd.fifo != [] || s.wr.fifo != []) ==>
                  Dispatch(s, t, a, size).1.Some?)
  {
    InitialInv(t);
    RunKeeps(Initial(t), t, ops);
    var s := RunAll(Initial(t), t, ops);
    hide RunAll, Legal;
    SelectedIsQueued(s, t, a);
    if !s.antic && !a.anticipate { OnlyThenWaits(s, t, a); }
    hide Select, LaneOk, Lanes.MoveToDispatch;
  }

  lemma OnlyThenWaits(s: State, t: Tunables, a: Answers)
    requires !s.antic && !a.anticipate
    ensures !Select(s, t, a).0.antic
  {
  }

  // ---------- the other direction gets its batch ----------

  /** The running batch is of the other direction than d, and has expired. */
  predicate Due(s: State, d: bool) { s.b.sync != d && BatchExpired(s) }

  /** For a dispatch in a batch of d that has begun: the other direction has nothing queued, or the batch
      has not expired and the code finds a request of its own. */
  predicate Favourable(s: State, d: bool, a: Answers) {
    || LaneOf(s, !d).fifo == []
    || (!BatchExpired(s) && (LaneOf(s, d).next.Some? || (d && a.anticExpire && a.fifoExpired)))
  }

  lemma DueIsServed(s: State, t: Tunables, a: Answers, size: Request -> nat, d: bool)
    requires Inv(s) && LaneOf(s, d).fifo != []
    requires Due(s, d) || (s.b.sync == d && (s.b.changed || Favourable(s, d, a)))
    ensures var (s', rq) := Dispatch(s, t, a, size);
            && (rq.Some? ==> rq.value.sync == d)
            && (rq == None ==> Due(s', d) || s'.b.sync == d)
  {
    SelectedIsQueued(s, t, a);
    LaneFacts(s.rd, true);
    LaneFacts(s.wr, false);
    hide LaneOk, Lanes.MoveToDispatch;
  }

  /** Up to the first request handed out: at every dispatch d has requests queued, and if it finds a batch
      of d begun, it is favourable. */
  ghost predicate Awaited(s: State, t: Tunables, d: bool, ops: seq<Op>)
    requires Legal(s, t, ops)
    decreases |ops|
  {
    ops == [] ||
    (&& (ops[0].Run? ==> LaneOf(s, d).fifo != [] && (s.b.sync == d && !s.b.changed ==> Favourable(s, d, ops[0].answers)))
     && (HandsOut(s, t, ops[0]) == None ==> Awaited(Step(s, t, ops[0]), t, d, ops[1..])))
  }

  function HandsOut(s: State, t: Tunables, op: Op): Option<Request> {
    if op.Run? then Dispatch(s, t, op.answers, op.size).1 else None
  }

  function FirstHandedOut(s: State, t: Tunables, ops: seq<Op>): Option<Request>
    requires Legal(s, t, ops)
    decreases |ops|
  {
    if ops == [] then None
    else if HandsOut(s, t, ops[0]).Some? then HandsOut(s, t, ops[0]) else FirstHandedOut(Step(s, t, ops[0]), t, ops[1..])
  }

  /** What happens in between does not give the turn back. */
  lemma TurnStays(s: State, t: Tunables, op: Op, d: bool)
    requires Enabled(s, op) && !op.Run? && (Due(s, d) || s.b.sync == d)
    ensures var s' := Step(s, t, op); Due(s', d) || s'.b.sync == d
  {
    hide LaneOk, Resized;
  }

  /** Once a batch has expired with requests of the other direction queued, the next request any dispatch
      hands out is of the other direction, whatever is added, merged, removed and completed in
      between, as long as the dispatches after the change of batch are favourable. */
  lemma {:induction false} OtherDirectionIsNext(s: State, t: Tunables, d: bool, ops: seq<Op>)
    requires Inv(s) && Legal(s, t, ops) && Awaited(s, t, d, ops) && (Due(s, d) || s.b.sync == d)
    ensures FirstHandedOut(s, t, ops).Some? ==> FirstHandedOut(s, t, ops).value.sync == d
    decreases |ops|
  {
    hide Inv, Dispatch, BatchExpired, Favourable, LaneOf;
    if ops != [] {
      StepKeeps(s, t, ops[0]);
      if ops[0].Run? { DueIsServed(s, t, ops[0].answers, ops[0].size, d); } else { TurnStays(s, t, ops[0], d); }
      if HandsOut(s, t, ops[0]) == None { OtherDirectionIsNext(Step(s, t, ops[0]), t, d, ops[1..]); }
    }
  }

  /** The condition is exact: with nothing in flight, a dispatch that finds a batch of d begun and does not
      anticipate hands out a request of d if it is favourable, and one of the other direction if not. */
  lemma FavourableExactly(s: State, t: Tunables, a: Answers, size: Request -> nat, d: bool)
    requires Inv(s) && LaneOf(s, d).fifo != [] && s.b.sync == d && !s.b.changed && s.inFlight == 0 && !s.antic && !a.anticipate
    ensures var rq := Dispatch(s, t, a, size).1; rq.Some? && (rq.value.sync == d <==> Favourable(s, d, a))
  {
    SelectedIsQueued(s, t, a);
    LaneFacts(s.rd, true);
    LaneFacts(s.wr, false);
    hide LaneOk, Lanes.MoveToDispatch;
  }

  /** A failing input: the change to writes takes effect, but the next dispatch comes after the write batch
      has expired, and goes back to reads. */
  lemma LateDispatchGoesBack(r: Request, w: Request, size: Request -> nat) returns (s: State, t: Tunables, ops: seq<Op>)
    requires r.sync && !w.sync
    ensures Inv(s) && Due(s, false) && s.wr.fifo == [w] && Legal(s, t, ops)
    ensures |ops| == 4 && ops[0].Run? && ops[1] == Done(true) && ops[2] == Tick(2) && ops[3].Run?
    ensures FirstHandedOut(s, t, ops) == Some(r)
  {
    var no := Answers(false, false, false, false);
    t := Tunables(1, 1);
    s := State(Lane([r], [r], Some(r), 0), Lane([w], [w], Some(w), 0), Batch(true, false, false, 0, 1, false, 1), false, 1, 2);
    ops := [Run(no, size), Done(true), Tick(2), Run(no, size)];
    var s1 := s.(b := Batch(false, true, false, 1, 1, false, 1));
    assert Step(s, t, ops[0]) == s1 && HandsOut(s, t, ops[0]) == None;
    var s2 := s1.(b := Batch(false, false, false, 1, 1, false, 3), inFlight := 0);
    assert Step(s1, t, ops[1]) == s2 && HandsOut(s1, t, ops[1]) == None;
    var s3 := s2.(now := 4);
    assert Step(s2, t, ops[2]) == s3 && HandsOut(s2, t, ops[2]) == None;
    assert HandsOut(s3, t, ops[3]) == Some(r);
    FourSteps(s, s1, s2, s3, t, ops);
  }

  lemma FourSteps(s: State, s1: State, s2: State, s3: State, t: Tunables, ops: seq<Op>)
    requires |ops| == 4 && Enabled(s, ops[0]) && Enabled(s1, ops[1]) && Enabled(s2, ops[2]) && Enabled(s3, ops[3])
    requires s1 == Step(s, t, ops[0]) && s2 == Step(s1, t, ops[1]) && s3 == Step(s2, t, ops[2])
    requires HandsOut(s, t, ops[0]) == HandsOut(s1, t, ops[1]) == HandsOut(s2, t, ops[2]) == None && HandsOut(s3, t, ops[3]).Some?
    ensures Legal(s, t, ops) && FirstHandedOut(s, t, ops) == HandsOut(s3, t, ops[3])
  {
    hide Step, HandsOut, Enabled;
    var o1 := ops[1..];
    var o2 := o1[1..];
    var o3 := o2[1..];
    assert o1[0] == ops[1] && o2[0] == ops[2] && o3[0] == ops[3] && o3[1..] == [];
    assert Legal(s3, t, o3) && FirstHandedOut(s3, t, o3) == HandsOut(s3, t, ops[3]);
    assert Legal(s2, t, o2) && FirstHandedOut(s2, t, o2) == HandsOut(s3, t, ops[3]);
    assert Legal(s1, t, o1) && FirstHandedOut(s1, t, o1) == HandsOut(s3, t, ops[3]);
  }

  // ---------- the change is carried out ----------

  function AllDone(s: State, t: Tunables, done: seq<bool>): State
    requires |done| <= s.inFlight
    decreases |done|
  {
    if done == [] then s else AllDone(Completed(s, t, done[0]), t, done[1..])
  }

  /** When the last request in flight completes, the new batch has begun and has not expired. */
  lemma {:induction false} BatchBegins(s: State, t: Tunables, done: seq<bool>)
    requires s.b.changed && !s.b.isNew && |done| == s.inFlight > 0 && (s.b.left >= 1 || s.b.sync) && s.b.count >= 1
    ensures var s' := AllDone(s, t, done);
            && s'.inFlight == 0 && !s'.b.changed && s'.b.sync == s.b.sync && !BatchExpired(s')
            && s'.rd == s.rd && s'.wr == s.wr && s'.antic == s.antic && s'.now == s.now && (s'.b.isNew ==> s'.b.sync) && s'.b.count >= 1
    decreases |done|
  {
    if |done| > 1 { BatchBegins(Completed(s, t, done[0]), t, done[1..]); } else { assert done[1..] == []; }
  }

  /** From an expired batch: a dispatch, the completion of whatever was in flight, and another dispatch hand
      out a request of the other direction, if it has one cached. */
  lemma ChangeIsCarriedOut(s: State, t: Tunables, a: Answers, a': Answers, size: Request -> nat, d: bool, done: seq<bool>)
    requires Inv(s) && Due(s, d) && LaneOf(s, d).next.Some? && !s.antic && !a.anticipate && !a'.anticipate && |done| == s.inFlight
    ensures var (s1, rq) := Dispatch(s, t, a, size);
            && (s.inFlight == 0 ==> rq.Some? && rq.value.sync == d)
            && (s.inFlight > 0 ==>
                  && rq == None && s1.inFlight == s.inFlight
                  && var rq' := Dispatch(AllDone(s1, t, done), t, a', size).1;
                     rq'.Some? && rq'.value.sync == d)
  {
    LaneFacts(LaneOf(s, d), d);
    assert LaneOf(s, d).fifo != [];
    ChangeBegins(s, t, a, size, d);
    DispatchKeeps(s, t, a, size);
    var s1 := Dispatch(s, t, a, size).0;
    hide Dispatch, LaneOk, AllDone, BatchExpired, Completed;
    if s.inFlight > 0 {
      BatchBegins(s1, t, done);
      FavourableExactly(AllDone(s1, t, done), t, a', size, d);
    }
  }

  lemma ChangeBegins(s: State, t: Tunables, a: Answers, size: Request -> nat, d: bool)
    requires Inv(s) && Due(s, d) && LaneOf(s, d).fifo != [] && !s.antic && !a.anticipate
    ensures var (s1, rq) := Dispatch(s, t, a, size);
            && (s.inFlight == 0 ==> rq.Some? && rq.value.sync == d)
            && (s.inFlight > 0 ==>
                  && rq == None && s1.inFlight == s.inFlight && s1.b.changed && !s1.b.isNew && s1.b.sync == d && !s1.antic
                  && s1.rd == s.rd && s1.wr == s.wr && s1.b.left >= (if d then 0 else 1))
  {
    SelectedIsQueued(s, t, a);
    LaneFacts(s.rd, true);
    LaneFacts(s.wr, false);
    hide LaneOk, Lanes.MoveToDispatch;
  }

  // ---------- how long a batch lasts ----------

  /** Throughout the run a batch of d is going on, and at every dispatch the other direction waits. */
  ghost predicate Contended(s: State, t: Tunables, d: bool, ops: seq<Op>)
    requires Legal(s, t, ops)
    decreases |ops|
  {
    && s.b.sync == d && !s.b.changed && !s.b.isNew
    && (ops != [] ==> (ops[0].Run? ==> LaneOf(s, !d).fifo != []) && Contended(Step(s, t, ops[0]), t, d, ops[1..]))
  }

  /** How many requests the dispatches of a run hand out. */
  function Handed(s: State, t: Tunables, ops: seq<Op>): nat
    requires Legal(s, t, ops)
    decreases |ops|
  {
    if ops == [] then 0 else (if HandsOut(s, t, ops[0]).Some? then 1 else 0) + Handed(Step(s, t, ops[0]), t, ops[1..])
  }

  lemma ContendedStep(s: State, t: Tunables, op: Op, d: bool)
    requires Inv(s) && Enabled(s, op) && s.b.sync == d && !s.b.changed && !s.b.isNew && (op.Run? ==> LaneOf(s, !d).fifo != [])
    requires Step(s, t, op).b.sync == d
    ensures var s' := Step(s, t, op);
            && s'.b.expires == s.b.expires
            && (!d ==> s'.b.left + (if HandsOut(s, t, op).Some? then 1 else 0) <= s.b.left)
  {
    LaneFacts(s.rd, true);
    LaneFacts(s.wr, false);
    if op.Run? { SelectedIsQueued(s, t, op.answers); }
    hide LaneOk, Lanes.MoveToDispatch, Resized;
  }

  /** While the other direction waits, no batch moves its own end, and a batch of writes hands out no more
      than the count it was given. */
  lemma {:induction false} BatchRunsOut(s: State, t: Tunables, d: bool, ops: seq<Op>)
    requires Inv(s) && Legal(s, t, ops) && Contended(s, t, d, ops)
    ensures var s' := RunAll(s, t, ops);
            s'.b.expires == s.b.expires && (!d ==> Handed(s, t, ops) + s'.b.left <= s.b.left)
    decreases |ops|
  {
    hide Inv, Step, HandsOut, LaneOf;
    if ops != [] {
      StepKeeps(s, t, ops[0]);
      BatchRunsOut(Step(s, t, ops[0]), t, d, ops[1..]);
      ContendedStep(s, t, ops[0], d);
    }
  }

  /** A batch of reads is timed from its first completion: until then it is new and cannot expire; the
      completion of a read gives it its whole time. */
  lemma ReadsAreTimedFromTheFirstCompletion(s: State, t: Tunables, op: Op)
    requires Inv(s) && Enabled(s, op)
    ensures var b, b' := s.b, Step(s, t, op).b;
            && (b.isNew ==> !BatchExpired(s))
            && (b.isNew && op == Done(true) ==> !b'.isNew && b'.expires == s.now + t.readBatch)
            && (b.isNew && op != Done(true) && b'.sync && !b'.changed ==> b'.isNew)
            && (!b.sync && b'.sync && !b'.changed ==> b'.isNew)
            && (b.changed && b.sync && !b'.changed ==> b'.isNew || (op == Done(true) && b'.expires == s.now + t.readBatch))
            && (b.changed && !b.sync && !b'.changed ==> b'.expires == s.now + t.writeBatch)
  {
    hide LaneOk, Dispatch, Resized;
    if op.Run? { DispatchIsTimed(s, t, op.answers, op.size); }
  }

  lemma DispatchIsTimed(s: State, t: Tunables, a: Answers, size: Request -> nat)
    requires Inv(s)
    ensures var b, b' := s.b, Dispatch(s, t, a, size).0.b;
            && (b.changed ==> b'.changed)
            && (b.isNew && b'.sync && !b'.changed ==> b'.isNew)
            && (!b.sync && b'.sync && !b'.changed ==> b'.isNew)
  {
    SelectedIsQueued(s, t, a);
    LaneFacts(s.rd, true);
    LaneFacts(s.wr, false);
    hide LaneOk, Lanes.MoveToDispatch;
  }

  /** With no writes queued a batch of reads is renewed by every cached read it hands out. */
  lemma LoneReadsRenew(s: State, t: Tunables, a: Answers)
    requires Inv(s) && s.b.sync && !s.b.changed && !s.antic && s.rd.next.Some? && s.wr.fifo == [] && !a.anticipate && !a.fifoExpired
    ensures Select(s, t, a).1.Some? && Select(s, t, a).0.b.expires == s.now + t.readBatch
  {
    LaneFacts(s.rd, true);
    hide LaneOk;
  }

  /** The next batch of writes is smaller exactly if this one took too long although reads were waiting, and
      larger exactly if it handed out all it was given in less than its time; by half or twice if it was
      off by more than three, else by one. */
  lemma WriteBatchAdapts(b: Batch, now: nat, t: Tunables, took: nat)
    requires b.count >= 1 && took == if now + t.writeBatch < b.expires then 0 else now + t.writeBatch - b.expires
    ensures var c := Resized(b, now, t);
            && (c < b.count <==> took > t.writeBatch && !b.idled && b.count > 1)
            && (c > b.count <==> took < t.writeBatch && b.left == 0)
            && (c > b.count && 3 * took >= t.writeBatch ==> c == b.count + 1)
            && (c > b.count && 3 * took < t.writeBatch ==> c == 2 * b.count)
            && (c < b.count && took <= 3 * t.writeBatch ==> c == b.count - 1)
            && (c < b.count && took > 3 * t.writeBatch ==> c == b.count / 2)
  {
  }

  /** What is in flight is what was handed out, by dispatches and because it was in the way, and not completed. */
  function Dones(ops: seq<Op>): nat { if ops == [] then 0 else (if ops[0].Done? then 1 else 0) + Dones(ops[1..]) }

  function MovedBy(ops: seq<Op>): nat { if ops == [] then 0 else (if ops[0].Queue? then ops[0].moved else 0) + MovedBy(ops[1..]) }

  lemma {:induction false} InFlightIsCounted(s: State, t: Tunables, ops: seq<Op>)
    requires Inv(s) && Legal(s, t, ops)
    ensures RunAll(s, t, ops).inFlight + Dones(ops) == s.inFlight + Handed(s, t, ops) + MovedBy(ops)
    decreases |ops|
  {
    hide Inv, Step, HandsOut;
    if ops != [] {
      StepKeeps(s, t, ops[0]);
      StepCounts(s, t, ops[0]);
      InFlightIsCounted(Step(s, t, ops[0]), t, ops[1..]);
    }
  }

  lemma StepCounts(s: State, t: Tunables, op: Op)
    requires Inv(s) && Enabled(s, op)
    ensures Step(s, t, op).inFlight + (if op.Done? then 1 else 0)
         == s.inFlight + (if HandsOut(s, t, op).Some? then 1 else 0) + (if op.Queue? then op.moved else 0)
  {
    if op.Run? { SelectedIsQueued(s, t, op.answers); }
    hide LaneOk, Lanes.MoveToDispatch, Resized, Select;
  }
}
