/** Allocation of requests (block/blk-core.c): the counts, the full and starved flags and the
    exclusive wait queues of both directions, changed under the queue lock by any number of
    tasks. A region under the lock is one step. What the I/O scheduler, the memory allocator and
    the batching clock answer is arbitrary. */
module RequestPool {
  import opened Options

  const BLKDEV_MIN_RQ := 4

  /** One direction: `count` counts allocated requests and allocations in progress, `live` the
      former alone; `wait` is the wait queue, its first task the first to be woken. */
  datatype Side = Side(count: nat, live: nat, starved: bool, full: bool, wait: seq<nat>)

  datatype MayQueue = May | No | Must

  /** The answers one call of get_request gets: from elv_may_queue and from ioc_batching. */
  datatype Answers = Answers(mayQueue: MayQueue, batching: bool)

  function CongestionOn(nr: nat): nat {
    var n := nr - nr / 8 + 1; if n > nr then nr else n
  }

  /** The locked part of get_request: whether a request may be allocated, and the new state. */
  function TryGet(s: Side, nr: nat, a: Answers): (Side, bool) {
    if a.mayQueue == No then (Refused(s), false)
    else
      var filling := s.count + 1 >= CongestionOn(nr) && s.count + 1 >= nr;
      if filling && s.full && a.mayQueue != Must && !a.batching then (s, false)
      else
        var s' := if filling then s.(full := true) else s;
        if s.count >= 3 * nr / 2 then (s', false)
        else (s'.(count := s.count + 1, starved := false), true)
  }

  /** With no request of this direction left, freeing one of the other must notice us. */
  function Refused(s: Side): Side { if s.count == 0 then s.(starved := true) else s }

  /** __freed_request, and the task it wakes. */
  function Freed(s: Side, nr: nat): (Side, Option<nat>) {
    if s.count + 1 > nr then (s, None)
    else if s.wait == [] then (s.(full := false), None)
    else (s.(full := false, wait := s.wait[1..]), Some(s.wait[0]))
  }

  /** queue_requests_store for one direction. */
  function Resized(s: Side, nr: nat): (Side, Option<nat>) {
    if s.count >= nr then (s.(full := true), None)
    else if s.wait == [] then (s.(full := false), None)
    else (s.(full := false, wait := s.wait[1..]), Some(s.wait[0]))
  }

  // ---------- the step system ----------

  /** A task: between calls, allocating memory, on the wait queue, or woken and about to try again. */
  datatype Pc = Idle | Allocating(d: bool, mayWait: bool) | Asleep(d: bool) | Woken(d: bool)

  datatype State = State(rd: Side, wr: Side, nr: nat, pcs: seq<Pc>)

  function Initial(nr: nat, n: nat): State {
    State(Side(0, 0, false, false, []), Side(0, 0, false, false, []), AtLeastMin(nr), seq(n, i => Idle))
  }

  function AtLeastMin(nr: nat): nat { if nr < BLKDEV_MIN_RQ then BLKDEV_MIN_RQ else nr }

  /** `d` is true for writes. */
  function SideOf(s: State, d: bool): Side { if d then s.wr else s.rd }

  function With(s: State, d: bool, side: Side): State { if d then s.(wr := side) else s.(rd := side) }

  function At(pcs: seq<Pc>, t: nat, p: Pc): seq<Pc>
    requires t < |pcs|
  {
    pcs[t := p]
  }

  function WakeUp(pcs: seq<Pc>, who: Option<nat>, d: bool): seq<Pc> {
    if who.Some? && who.value < |pcs| then pcs[who.value := Woken(d)] else pcs
  }

  /** __freed_request on direction d. */
  function FreedOn(s: State, d: bool): State {
    var (side, who) := Freed(SideOf(s, d), s.nr);
    With(s, d, side).(pcs := WakeUp(s.pcs, who, d))
  }

  /** freed_request, once the count is down. */
  function FreedRequest(s: State, d: bool): State {
    var s1 := FreedOn(s, d);
    if SideOf(s1, !d).starved then FreedOn(s1, !d) else s1
  }

  /** The task joins the end of the wait queue, or gives up. */
  function Sleep(s: State, t: nat, d: bool, mayWait: bool): State
    requires t < |s.pcs|
  {
    if !mayWait then s.(pcs := At(s.pcs, t, Idle))
    else With(s, d, SideOf(s, d).(wait := SideOf(s, d).wait + [t])).(pcs := At(s.pcs, t, Asleep(d)))
  }

  datatype Op = Get(t: nat, d: bool, mayWait: bool, answers: Answers)   // get_request, first or after a wakeup
              | AllocOk(t: nat) | AllocFail(t: nat)                      // the end of blk_alloc_request
              | Free(dir: bool)                                          // a request is released
              | Resize(nr: nat)                                          // queue_requests_store

  /** What a task or a driver may do: a task waits its turn, and only what is held is released. */
  predicate Possible(s: State, op: Op) {
    match op
    case Get(t, d, mayWait, _) => t < |s.pcs| && (s.pcs[t] == Idle || (s.pcs[t] == Woken(d) && mayWait))
    case AllocOk(t) => t < |s.pcs| && s.pcs[t].Allocating?
    case AllocFail(t) => t < |s.pcs| && s.pcs[t].Allocating?
    case Free(d) => SideOf(s, d).live > 0
    case Resize(_) => true
  }

  /** Releasing counts down, which takes something to count. */
  predicate Enabled(s: State, op: Op) {
    && Possible(s, op)
    && (op.AllocFail? ==> SideOf(s, s.pcs[op.t].d).count > 0)
    && (op.Free? ==> SideOf(s, op.dir).count > 0)
  }

  function Step(s: State, op: Op): State
    requires Enabled(s, op)
  {
    match op
    case Get(t, d, mayWait, a) =>
      var (side, ok) := TryGet(SideOf(s, d), s.nr, a);
      if ok then With(s, d, side).(pcs := At(s.pcs, t, Allocating(d, mayWait))) else Sleep(With(s, d, side), t, d, mayWait)
    case AllocOk(t) =>
      var d := s.pcs[t].d;
      With(s, d, SideOf(s, d).(live := SideOf(s, d).live + 1)).(pcs := At(s.pcs, t, Idle))
    case AllocFail(t) =>
      var d, mayWait := s.pcs[t].d, s.pcs[t].mayWait;
      var s1 := With(s, d, SideOf(s, d).(count := SideOf(s, d).count - 1)).(pcs := At(s.pcs, t, Idle));
      var s2 := FreedRequest(s1, d);
      if t < |s2.pcs| then Sleep(With(s2, d, Refused(SideOf(s2, d))), t, d, mayWait) else s2
    case Free(d) =>
      FreedRequest(With(s, d, SideOf(s, d).(count := SideOf(s, d).count - 1, live := SideOf(s, d).live - 1)), d)
    case Resize(nr) =>
      var n := AtLeastMin(nr);
      var (rd, r) := Resized(s.rd, n);
      var (wr, w) := Resized(s.wr, n);
      State(rd, wr, n, WakeUp(WakeUp(s.pcs, r, false), w, true))
  }

  // ---------- what holds of one direction ----------

  function Allocs(pcs: seq<Pc>, d: bool): nat {
    if pcs == [] then 0 else (if pcs[0].Allocating? && pcs[0].d == d then 1 else 0) + Allocs(pcs[1..], d)
  }

  predicate Concerns(p: Pc, d: bool) { p != Idle && p.d == d }

  /** The wait queue holds exactly the sleeping tasks; the count is of requests and allocations;
      a starved direction has none. */
  ghost predicate Core(side: Side, pcs: seq<Pc>, d: bool) {
    && (forall i, j :: 0 <= i < j < |side.wait| ==> side.wait[i] != side.wait[j])
    && (forall t :: t in side.wait <==> 0 <= t < |pcs| && pcs[t] == Asleep(d))
    && side.count == side.live + Allocs(pcs, d)
    && (side.starved ==> side.count == 0)
  }

  /** A sleeper has a request in flight whose release will wake it, the starved flag, or a
      woken task ahead of it. */
  ghost predicate Attended(side: Side, pcs: seq<Pc>, d: bool) {
    side.wait != [] ==> side.count > 0 || side.starved || exists t :: 0 <= t < |pcs| && pcs[t] == Woken(d)
  }

  ghost predicate FullOk(side: Side, nr: nat) { side.full ==> side.count >= nr }

  ghost predicate DirOk(side: Side, pcs: seq<Pc>, d: bool, nr: nat) {
    Core(side, pcs, d) && Attended(side, pcs, d) && FullOk(side, nr)
  }

  lemma {:induction false} AllocsUpdate(pcs: seq<Pc>, t: nat, p: Pc, d: bool)
    requires t < |pcs|
    ensures Allocs(pcs[t := p], d) + (if pcs[t].Allocating? && pcs[t].d == d then 1 else 0)
         == Allocs(pcs, d) + (if p.Allocating? && p.d == d then 1 else 0)
    decreases |pcs|
  {
    if t > 0 {
      assert pcs[t := p][1..] == pcs[1..][t - 1 := p];
      AllocsUpdate(pcs[1..], t - 1, p, d);
    }
  }

  /** A task changing in one direction is nothing to the other. */
  lemma OtherDirection(side: Side, pcs: seq<Pc>, d: bool, nr: nat, t: nat, p: Pc)
    requires t < |pcs| && !Concerns(pcs[t], d) && !Concerns(p, d) && DirOk(side, pcs, d, nr)
    ensures DirOk(side, pcs[t := p], d, nr)
  {
    AllocsUpdate(pcs, t, p, d);
    if exists x :: 0 <= x < |pcs| && pcs[x] == Woken(d) {
      var x :| 0 <= x < |pcs| && pcs[x] == Woken(d);
      assert pcs[t := p][x] == Woken(d);
    }
  }

  lemma HeadIsGone(w: seq<nat>)
    requires w != [] && forall i, j :: 0 <= i < j < |w| ==> w[i] != w[j]
    ensures w[0] in w && w[0] !in w[1..] && forall x :: x in w[1..] <==> x in w && x != w[0]
  {
  }

  /** Releasing a count, waking as __freed_request does: whatever the flag said, it is right after. */
  lemma FreedKeeps(side: Side, pcs: seq<Pc>, d: bool, nr: nat)
    requires Core(side, pcs, d) && (side.full ==> side.count + 1 >= nr) && nr > 1
    ensures var (side', who) := Freed(side, nr);
            && DirOk(side', WakeUp(pcs, who, d), d, nr)
            && (who.Some? ==> who.value < |pcs| && pcs[who.value] == Asleep(d))
            && (side.wait != [] && side.count + 1 <= nr ==> who.Some?)
  {
    var (side', who) := Freed(side, nr);
    if who.Some? {
      HeadIsGone(side.wait);
      AllocsUpdate(pcs, who.value, Woken(d), d);
      assert WakeUp(pcs, who, d)[who.value] == Woken(d);
    }
  }

  lemma ResizedKeeps(side: Side, pcs: seq<Pc>, d: bool, nr: nat)
    requires Core(side, pcs, d) && nr > 1
    ensures var (side', who) := Resized(side, nr);
            && DirOk(side', WakeUp(pcs, who, d), d, nr)
            && (who.Some? ==> who.value < |pcs| && pcs[who.value] == Asleep(d))
  {
    if side.count < nr { FreedKeeps(side.(full := false), pcs, d, nr); }
  }

  /** What get_request leaves when it fails lets the task sleep. */
  lemma SleepKeeps(side: Side, pcs: seq<Pc>, d: bool, nr: nat, t: nat, mayWait: bool)
    requires t < |pcs| && (pcs[t] == Idle || pcs[t] == Woken(d)) && Core(side, pcs, d) && FullOk(side, nr)
    requires side.count > 0 || side.starved
    ensures !mayWait ==> DirOk(side, pcs[t := Idle], d, nr)
    ensures mayWait ==> DirOk(side.(wait := side.wait + [t]), pcs[t := Asleep(d)], d, nr)
  {
    AllocsUpdate(pcs, t, Idle, d);
    AllocsUpdate(pcs, t, Asleep(d), d);
    assert t !in side.wait;
  }

  lemma TryGetKeeps(side: Side, pcs: seq<Pc>, d: bool, nr: nat, t: nat, a: Answers, mayWait: bool)
    requires t < |pcs| && (pcs[t] == Idle || pcs[t] == Woken(d)) && DirOk(side, pcs, d, nr) && nr >= BLKDEV_MIN_RQ
    ensures var (side', ok) := TryGet(side, nr, a);
            && (ok ==> DirOk(side', pcs[t := Allocating(d, mayWait)], d, nr))
            && (!ok ==> Core(side', pcs, d) && FullOk(side', nr) && (side'.count > 0 || side'.starved))
  {
    AllocsUpdate(pcs, t, Allocating(d, mayWait), d);
  }

  // ---------- every step and every run ----------

  ghost predicate Inv(s: State) {
    s.nr >= BLKDEV_MIN_RQ && DirOk(s.rd, s.pcs, false, s.nr) && DirOk(s.wr, s.pcs, true, s.nr)
  }

  /** Direction d as it is, the other as it should be. */
  ghost predicate OtherOk(s: State, d: bool) { s.nr >= BLKDEV_MIN_RQ && DirOk(SideOf(s, !d), s.pcs, !d, s.nr) }

  lemma FreedOnKeeps(s: State, d: bool)
    requires OtherOk(s, d) && Core(SideOf(s, d), s.pcs, d) && (SideOf(s, d).full ==> SideOf(s, d).count + 1 >= s.nr)
    ensures Inv(FreedOn(s, d)) && |FreedOn(s, d).pcs| == |s.pcs|
    ensures forall t :: 0 <= t < |s.pcs| && s.pcs[t] == Idle ==> FreedOn(s, d).pcs[t] == Idle
  {
    hide Core, Attended, FullOk;
    FreedKeeps(SideOf(s, d), s.pcs, d, s.nr);
    var (side, who) := Freed(SideOf(s, d), s.nr);
    if who.Some? { OtherDirection(SideOf(s, !d), s.pcs, !d, s.nr, who.value, Woken(d)); }
  }

  lemma FreedRequestKeeps(s: State, d: bool)
    requires OtherOk(s, d) && Core(SideOf(s, d), s.pcs, d) && (SideOf(s, d).full ==> SideOf(s, d).count + 1 >= s.nr)
    ensures Inv(FreedRequest(s, d)) && |FreedRequest(s, d).pcs| == |s.pcs|
    ensures forall t :: 0 <= t < |s.pcs| && s.pcs[t] == Idle ==> FreedRequest(s, d).pcs[t] == Idle
  {
    hide Core, Attended;
    FreedOnKeeps(s, d);
    var s1 := FreedOn(s, d);
    hide FreedOn;
    if SideOf(s1, !d).starved { FreedOnKeeps(s1, !d); }
  }

  lemma GetKeeps(s: State, t: nat, d: bool, mayWait: bool, a: Answers)
    requires Inv(s) && Enabled(s, Get(t, d, mayWait, a))
    ensures Inv(Step(s, Get(t, d, mayWait, a)))
  {
    hide Core, Attended, FullOk, TryGet;
    var (side, ok) := TryGet(SideOf(s, d), s.nr, a);
    TryGetKeeps(SideOf(s, d), s.pcs, d, s.nr, t, a, mayWait);
    if !ok { SleepKeeps(side, s.pcs, d, s.nr, t, mayWait); }
    OtherDirection(SideOf(s, !d), s.pcs, !d, s.nr, t, if ok then Allocating(d, mayWait) else if mayWait then Asleep(d) else Idle);
  }

  lemma AllocOkKeeps(s: State, t: nat)
    requires Inv(s) && Enabled(s, AllocOk(t))
    ensures Inv(Step(s, AllocOk(t)))
  {
    var d := s.pcs[t].d;
    AllocsUpdate(s.pcs, t, Idle, d);
    OtherDirection(SideOf(s, !d), s.pcs, !d, s.nr, t, Idle);
    hide Allocs;
  }

  lemma AllocFailKeeps(s: State, t: nat)
    requires Inv(s) && Enabled(s, AllocFail(t))
    ensures Inv(Step(s, AllocFail(t)))
  {
    hide Core, Attended, FullOk, Refused, FreedRequest;
    var d, mayWait := s.pcs[t].d, s.pcs[t].mayWait;
    var s1 := With(s, d, SideOf(s, d).(count := SideOf(s, d).count - 1)).(pcs := At(s.pcs, t, Idle));
    GivesUp(SideOf(s, d), s.pcs, d, s.nr, t);
    OtherDirection(SideOf(s, !d), s.pcs, !d, s.nr, t, Idle);
    FreedRequestKeeps(s1, d);
    var s2 := FreedRequest(s1, d);
    assert s1.pcs[t] == Idle && s2.pcs[t] == Idle;
    RefusedKeeps(SideOf(s2, d), s2.pcs, d, s2.nr);
    SleepKeeps(Refused(SideOf(s2, d)), s2.pcs, d, s2.nr, t, mayWait);
    OtherDirection(SideOf(s2, !d), s2.pcs, !d, s2.nr, t, if mayWait then Asleep(d) else Idle);
  }

  lemma GivesUp(side: Side, pcs: seq<Pc>, d: bool, nr: nat, t: nat)
    requires DirOk(side, pcs, d, nr) && t < |pcs| && pcs[t].Allocating? && pcs[t].d == d && side.count > 0
    ensures Core(side.(count := side.count - 1), pcs[t := Idle], d) && (side.full ==> side.count >= nr)
  {
    AllocsUpdate(pcs, t, Idle, d);
  }

  lemma RefusedKeeps(side: Side, pcs: seq<Pc>, d: bool, nr: nat)
    requires DirOk(side, pcs, d, nr)
    ensures var r := Refused(side); Core(r, pcs, d) && FullOk(r, nr) && (r.count > 0 || r.starved)
  {
  }

  lemma FreeKeeps(s: State, d: bool)
    requires Inv(s) && Enabled(s, Free(d))
    ensures Inv(Step(s, Free(d)))
  {
    hide Core, Attended, FullOk, FreedRequest;
    var side := SideOf(s, d);
    Released(side, s.pcs, d, s.nr);
    FreedRequestKeeps(With(s, d, side.(count := side.count - 1, live := side.live - 1)), d);
  }

  lemma Released(side: Side, pcs: seq<Pc>, d: bool, nr: nat)
    requires DirOk(side, pcs, d, nr) && side.live > 0 && side.count > 0
    ensures Core(side.(count := side.count - 1, live := side.live - 1), pcs, d) && (side.full ==> side.count >= nr)
  {
  }

  lemma ResizeKeeps(s: State, nr: nat)
    requires Inv(s)
    ensures Inv(Step(s, Resize(nr)))
  {
    hide Attended, FullOk;
    var n := AtLeastMin(nr);
    ResizedKeeps(s.rd, s.pcs, false, n);
    ResizedKeeps(s.wr, s.pcs, true, n);
    var (rd, r) := Resized(s.rd, n);
    var (wr, w) := Resized(s.wr, n);
    var p1 := WakeUp(s.pcs, r, false);
    assert Core(s.wr, p1, true) by { if r.Some? { AllocsUpdate(s.pcs, r.value, Woken(false), true); } }
    ResizedKeeps(s.wr, p1, true, n);
    if w.Some? { OtherDirection(rd, p1, false, n, w.value, Woken(true)); }
  }

  lemma StepKeeps(s: State, op: Op)
    requires Inv(s) && Enabled(s, op)
    ensures Inv(Step(s, op))
  {
    match op {
      case Get(t, d, mayWait, a) => GetKeeps(s, t, d, mayWait, a);
      case AllocOk(t) => AllocOkKeeps(s, t);
      case AllocFail(t) => AllocFailKeeps(s, t);
      case Free(d) => FreeKeeps(s, d);
      case Resize(nr) => ResizeKeeps(s, nr);
    }
  }

  predicate Legal(s: State, ops: seq<Op>)
    decreases |ops|
  {
    ops == [] || (Enabled(s, ops[0]) && Legal(Step(s, ops[0]), ops[1..]))
  }

  function Run(s: State, ops: seq<Op>): State
    requires Legal(s, ops)
    decreases |ops|
  {
    if ops == [] then s else Run(Step(s, ops[0]), ops[1..])
  }

  lemma {:induction false} RunKeeps(s: State, ops: seq<Op>)
    requires Inv(s) && Legal(s, ops)
    ensures Inv(Run(s, ops))
    decreases |ops|
  {
    if ops != [] {
      StepKeeps(s, ops[0]);
      RunKeeps(Step(s, ops[0]), ops[1..]);
    }
  }

  lemma {:induction false} NoAllocs(n: nat, d: bool)
    ensures Allocs(seq(n, i => Idle), d) == 0
  {
    if n > 0 {
      assert seq(n, i => Idle)[1..] == seq(n - 1, i => Idle);
      NoAllocs(n - 1, d);
    }
  }

  lemma InitialInv(nr: nat, n: nat)
    ensures Inv(Initial(nr, n))
  {
    NoAllocs(n, false);
    NoAllocs(n, true);
  }

  /** No lost wakeup: in every run, a task asleep for a direction is on its wait queue, and the
      direction has a request or an allocation in progress, or the starved flag, or a woken
      task yet to retry; and the full flag is set only at or over the limit. */
  lemma NoLostWakeup(nr: nat, n: nat, ops: seq<Op>, t: nat, d: bool)
    requires Legal(Initial(nr, n), ops)
    ensures var s := Run(Initial(nr, n), ops); var side := SideOf(s, d);
            && (side.full ==> side.count >= s.nr)
            && (t < |s.pcs| && s.pcs[t] == Asleep(d) ==>
                  t in side.wait && (side.count > 0 || side.starved || exists w :: 0 <= w < |s.pcs| && s.pcs[w] == Woken(d)))
  {
    InitialInv(nr, n);
    RunKeeps(Initial(nr, n), ops);
  }

  /** The count covers every request held or being allocated, so it never falls below zero
      and no possible step is ruled out. */
  lemma CountNeverUnderflows(nr: nat, n: nat, ops: seq<Op>, op: Op)
    requires Legal(Initial(nr, n), ops) && Possible(Run(Initial(nr, n), ops), op)
    ensures Enabled(Run(Initial(nr, n), ops), op)
  {
    InitialInv(nr, n);
    RunKeeps(Initial(nr, n), ops);
    var s := Run(Initial(nr, n), ops);
    if op.AllocFail? { AllocsUpdate(s.pcs, op.t, Idle, s.pcs[op.t].d); }
  }

  /** The starved flag is enough: releasing a request of either direction wakes a starved sleeper. */
  lemma StarvedIsNoticed(s: State, d: bool, dir: bool)
    requires Inv(s) && Enabled(s, Free(dir)) && SideOf(s, d).starved && SideOf(s, d).wait != []
    ensures var t := SideOf(s, d).wait[0]; t < |s.pcs| && Step(s, Free(dir)).pcs[t] == Woken(d)
  {
    assert SideOf(s, d).wait[0] in SideOf(s, d).wait;
    assert dir != d;
    var side := SideOf(s, dir);
    var s1 := With(s, dir, side.(count := side.count - 1, live := side.live - 1));
    FreedKeeps(SideOf(s1, dir), s1.pcs, dir, s1.nr);
    hide Allocs;
  }

  // ---------- who gets a request ----------

  /** Granted exactly when the scheduler does not refuse, the count is below one and a half times the
      limit, and either the limit is not reached with this request, or the queue was not full before,
      or the task is exempt. */
  predicate Grants(s: Side, nr: nat, a: Answers) {
    && a.mayQueue != No && s.count < 3 * nr / 2
    && (s.count + 1 < nr || !s.full || a.mayQueue == Must || a.batching)
  }

  lemma GrantedExactly(s: Side, nr: nat, a: Answers)
    ensures var (s', ok) := TryGet(s, nr, a);
            && (ok <==> Grants(s, nr, a))
            && s'.count == (if ok then s.count + 1 else s.count)
            && (s'.full <==> s.full || (a.mayQueue != No && s.count + 1 >= nr))
            && (s'.starved <==> !ok && (s.starved || (a.mayQueue == No && s.count == 0)))
  {
    assert CongestionOn(nr) <= nr;
  }

  /** No limit in force during the run is above m. */
  predicate LimitsWithin(ops: seq<Op>, m: nat) { forall i :: 0 <= i < |ops| && ops[i].Resize? ==> AtLeastMin(ops[i].nr) <= m }

  lemma GetCounts(s: State, t: nat, d: bool, mayWait: bool, a: Answers, m: nat)
    requires Enabled(s, Get(t, d, mayWait, a)) && s.nr <= m && SideOf(s, d).count <= 3 * m / 2
    ensures var s' := Step(s, Get(t, d, mayWait, a));
            s'.nr == s.nr && SideOf(s', d).count <= 3 * m / 2 && SideOf(s', !d).count == SideOf(s, !d).count
  {
    GrantedExactly(SideOf(s, d), s.nr, a);
    hide TryGet;
    var (side, ok) := TryGet(SideOf(s, d), s.nr, a);
    assert side.count <= 3 * m / 2;
  }

  lemma StepCounts(s: State, op: Op, m: nat)
    requires Enabled(s, op) && s.nr <= m && (op.Resize? ==> AtLeastMin(op.nr) <= m)
    requires s.rd.count <= 3 * m / 2 && s.wr.count <= 3 * m / 2
    ensures var s' := Step(s, op); s'.nr <= m && s'.rd.count <= 3 * m / 2 && s'.wr.count <= 3 * m / 2
  {
    hide TryGet, FreedRequest;
    match op {
      case Get(t, d, mayWait, a) => GetCounts(s, t, d, mayWait, a, m);
      case AllocFail(t) =>
        var d := s.pcs[t].d;
        FreedCounts(With(s, d, SideOf(s, d).(count := SideOf(s, d).count - 1)).(pcs := At(s.pcs, t, Idle)), d);
      case Free(d) =>
        FreedCounts(With(s, d, SideOf(s, d).(count := SideOf(s, d).count - 1, live := SideOf(s, d).live - 1)), d);
      case _ =>
    }
  }

  lemma FreedCounts(s: State, d: bool)
    ensures var s' := FreedRequest(s, d); s'.nr == s.nr && s'.rd.count == s.rd.count && s'.wr.count == s.wr.count
  {
  }

  lemma {:induction false} RunCounts(s: State, ops: seq<Op>, m: nat)
    requires Legal(s, ops) && s.nr <= m && LimitsWithin(ops, m) && s.rd.count <= 3 * m / 2 && s.wr.count <= 3 * m / 2
    ensures Run(s, ops).rd.count <= 3 * m / 2 && Run(s, ops).wr.count <= 3 * m / 2
    decreases |ops|
  {
    if ops != [] {
      StepCounts(s, ops[0], m);
      RunCounts(Step(s, ops[0]), ops[1..], m);
    }
  }

  /** In every run, whoever batches or is exempt: at most one and a half times the largest limit that
      was in force is ever allocated in a direction; with the limit left alone, of that limit. */
  lemma CountIsBounded(nr: nat, n: nat, ops: seq<Op>, m: nat, d: bool)
    requires Legal(Initial(nr, n), ops) && AtLeastMin(nr) <= m && LimitsWithin(ops, m)
    ensures SideOf(Run(Initial(nr, n), ops), d).count <= 3 * m / 2
  {
    RunCounts(Initial(nr, n), ops, m);
  }

  /** Nobody jumps the queue: a step takes at most the first task off the wait queue of a direction, and puts
      at most the task that makes it on, at the end. */
  lemma WaitersKeepTheirOrder(s: State, op: Op, d: bool)
    requires Enabled(s, op)
    ensures var w, w' := SideOf(s, d).wait, SideOf(Step(s, op), d).wait;
            || w' == w || (w != [] && w' == w[1..])
            || ((op.Get? || op.AllocFail?) && (w' == w + [op.t] || (w != [] && w' == w[1..] + [op.t])))
  {
    hide TryGet, FreedRequest, Refused;
    match op {
      case Get(t, e, mayWait, a) =>
        TryGetWaits(SideOf(s, e), s.nr, a);
        SleepOrder(With(s, e, TryGet(SideOf(s, e), s.nr, a).0), t, e, mayWait, d);
        hide Sleep;
      case AllocFail(t) =>
        var e := s.pcs[t].d;
        var s1 := With(s, e, SideOf(s, e).(count := SideOf(s, e).count - 1)).(pcs := At(s.pcs, t, Idle));
        FreedRequestOrder(s1, e, d);
        var s2 := FreedRequest(s1, e);
        RefusedWaits(SideOf(s2, e));
        if t < |s2.pcs| { SleepOrder(With(s2, e, Refused(SideOf(s2, e))), t, e, s.pcs[t].mayWait, d); }
        hide Sleep;
      case Free(e) =>
        FreedRequestOrder(With(s, e, SideOf(s, e).(count := SideOf(s, e).count - 1, live := SideOf(s, e).live - 1)), e, d);
      case _ =>
    }
  }

  lemma SleepOrder(s: State, t: nat, e: bool, mayWait: bool, d: bool)
    requires t < |s.pcs|
    ensures var w, w' := SideOf(s, d).wait, SideOf(Sleep(s, t, e, mayWait), d).wait; w' == w || w' == w + [t]
  {
  }

  lemma RefusedWaits(s: Side)
    ensures Refused(s).wait == s.wait
  {
  }

  lemma TryGetWaits(s: Side, nr: nat, a: Answers)
    ensures TryGet(s, nr, a).0.wait == s.wait
  {
  }

  lemma FreedRequestOrder(s: State, e: bool, d: bool)
    ensures var w, w' := SideOf(s, d).wait, SideOf(FreedRequest(s, e), d).wait;
            w' == w || (w != [] && w' == w[1..])
  {
  }

  // ---------- nobody sleeps forever ----------

  /** Neither the scheduler nor the memory allocator turns anybody away. */
  predicate NoRefusals(ops: seq<Op>) {
    forall i :: 0 <= i < |ops| ==> !ops[i].AllocFail? && (ops[i].Get? ==> ops[i].answers.mayQueue != No)
  }

  lemma StarvedOnlyByRefusal(s: State, op: Op)
    requires Enabled(s, op) && !s.rd.starved && !s.wr.starved
    requires !op.AllocFail? && (op.Get? ==> op.answers.mayQueue != No)
    ensures !Step(s, op).rd.starved && !Step(s, op).wr.starved
  {
  }

  lemma {:induction false} NeverStarved(s: State, ops: seq<Op>)
    requires Legal(s, ops) && NoRefusals(ops) && !s.rd.starved && !s.wr.starved
    ensures !Run(s, ops).rd.starved && !Run(s, ops).wr.starved
    decreases |ops|
  {
    if ops != [] {
      StarvedOnlyByRefusal(s, ops[0]);
      NeverStarved(Step(s, ops[0]), ops[1..]);
    }
  }

  lemma {:induction false} NobodyAllocating(pcs: seq<Pc>, d: bool)
    requires forall t :: 0 <= t < |pcs| ==> !pcs[t].Allocating?
    ensures Allocs(pcs, d) == 0
  {
    if pcs != [] { NobodyAllocating(pcs[1..], d); }
  }

  /** Every request is released and every task has run as far as it can. */
  predicate Quiet(s: State) {
    s.rd.live == 0 && s.wr.live == 0 && forall t :: 0 <= t < |s.pcs| ==> s.pcs[t].Idle? || s.pcs[t].Asleep?
  }

  /** In every run, whoever is still asleep once all is quiet has the starved flag to wait for. */
  lemma OnlyTheStarvedSleep(nr: nat, n: nat, ops: seq<Op>, t: nat, d: bool)
    requires Legal(Initial(nr, n), ops) && Quiet(Run(Initial(nr, n), ops))
    ensures var s := Run(Initial(nr, n), ops);
            t < |s.pcs| && s.pcs[t] == Asleep(d) ==> SideOf(s, d).starved && t in SideOf(s, d).wait
  {
    var s := Run(Initial(nr, n), ops);
    InitialInv(nr, n);
    RunKeeps(Initial(nr, n), ops);
    NobodyAllocating(s.pcs, d);
    hide Run;
  }

  // Where every task waits for its request, as in get_request_wait, the flag also says that
  // somebody sleeps.

  predicate AllWait(ops: seq<Op>) { forall i :: 0 <= i < |ops| ==> ops[i].Get? ==> ops[i].mayWait }

  /** A starved direction has somebody asleep, or woken and about to try again. */
  ghost predicate Expected(side: Side, pcs: seq<Pc>, d: bool) {
    side.starved ==> side.wait != [] || exists t :: 0 <= t < |pcs| && pcs[t] == Woken(d)
  }

  ghost predicate Waiting(s: State) {
    && (forall t :: 0 <= t < |s.pcs| && s.pcs[t].Allocating? ==> s.pcs[t].mayWait)
    && Expected(s.rd, s.pcs, false) && Expected(s.wr, s.pcs, true)
  }

  /** Whoever is on the wait queue is asleep for it. */
  ghost predicate Sleepers(side: Side, pcs: seq<Pc>, d: bool) {
    forall t :: t in side.wait ==> t < |pcs| && pcs[t] == Asleep(d)
  }

  lemma StillExpected(side: Side, side1: Side, pcs: seq<Pc>, pcs1: seq<Pc>, d: bool)
    requires Expected(side, pcs, d) && |pcs1| == |pcs| && (side1.starved ==> side.starved)
    requires side.wait != [] ==> side1.wait != []
    requires forall t :: 0 <= t < |pcs| && pcs[t] == Woken(d) ==> pcs1[t] == Woken(d)
    ensures Expected(side1, pcs1, d)
  {
  }

  lemma WokenIsExpected(side: Side, pcs: seq<Pc>, d: bool, t: nat)
    requires t < |pcs| && pcs[t] == Woken(d)
    ensures Expected(side, pcs, d)
  {
  }

  /** One direction wakes its first sleeper, or nobody. */
  lemma WakeWaits(s: State, d: bool, side: Side, who: Option<nat>)
    requires Waiting(s) && Sleepers(SideOf(s, d), s.pcs, d) && side.starved == SideOf(s, d).starved
    requires if who.Some? then who.value in SideOf(s, d).wait else side.wait == SideOf(s, d).wait
    ensures Waiting(With(s, d, side).(pcs := WakeUp(s.pcs, who, d)))
    ensures forall t :: 0 <= t < |s.pcs| && s.pcs[t] != Asleep(d) ==> WakeUp(s.pcs, who, d)[t] == s.pcs[t]
  {
    hide Expected;
    var pcs1 := WakeUp(s.pcs, who, d);
    StillExpected(SideOf(s, !d), SideOf(s, !d), s.pcs, pcs1, !d);
    if who.Some? { WokenIsExpected(side, pcs1, d, who.value); } else { StillExpected(SideOf(s, d), side, s.pcs, pcs1, d); }
  }

  lemma FreedOnWaits(s: State, d: bool)
    requires Waiting(s) && Sleepers(SideOf(s, d), s.pcs, d)
    ensures Waiting(FreedOn(s, d)) && |FreedOn(s, d).pcs| == |s.pcs| && SideOf(FreedOn(s, d), !d) == SideOf(s, !d)
    ensures forall t :: 0 <= t < |s.pcs| && s.pcs[t] != Asleep(d) ==> FreedOn(s, d).pcs[t] == s.pcs[t]
  {
    hide Waiting;
    var (side, who) := Freed(SideOf(s, d), s.nr);
    WakeWaits(s, d, side, who);
  }

  lemma FreedRequestWaits(s: State, d: bool)
    requires Waiting(s) && Sleepers(SideOf(s, d), s.pcs, d) && Sleepers(SideOf(s, !d), s.pcs, !d)
    ensures Waiting(FreedRequest(s, d)) && |FreedRequest(s, d).pcs| == |s.pcs|
    ensures forall t :: 0 <= t < |s.pcs| && !s.pcs[t].Asleep? ==> FreedRequest(s, d).pcs[t] == s.pcs[t]
  {
    hide Waiting;
    FreedOnWaits(s, d);
    if SideOf(FreedOn(s, d), !d).starved { FreedOnWaits(FreedOn(s, d), !d); }
  }

  lemma SleepWaits(s: State, t: nat, d: bool, side: Side)
    requires t < |s.pcs| && (forall x :: 0 <= x < |s.pcs| && s.pcs[x].Allocating? ==> s.pcs[x].mayWait || x == t)
    requires Expected(SideOf(s, !d), s.pcs, !d) && s.pcs[t] != Woken(!d)
    ensures Waiting(Sleep(With(s, d, side), t, d, true))
  {
    hide Expected;
    var s1 := Sleep(With(s, d, side), t, d, true);
    StillExpected(SideOf(s, !d), SideOf(s1, !d), s.pcs, s1.pcs, !d);
    assert Expected(SideOf(s1, d), s1.pcs, d) by { SleeperIsExpected(SideOf(s1, d), s1.pcs, d); }
  }

  lemma SleeperIsExpected(side: Side, pcs: seq<Pc>, d: bool)
    requires side.wait != []
    ensures Expected(side, pcs, d)
  {
  }

  lemma GetWaits(s: State, t: nat, d: bool, a: Answers)
    requires Waiting(s) && Enabled(s, Get(t, d, true, a))
    ensures Waiting(Step(s, Get(t, d, true, a)))
  {
    hide Expected;
    var (side, ok) := TryGet(SideOf(s, d), s.nr, a);
    if ok {
      var s1 := Step(s, Get(t, d, true, a));
      StillExpected(SideOf(s, !d), SideOf(s1, !d), s.pcs, s1.pcs, !d);
      assert Expected(SideOf(s1, d), s1.pcs, d) by { FedIsExpected(SideOf(s1, d), s1.pcs, d); }
    } else {
      SleepWaits(s, t, d, side);
    }
  }

  lemma FedIsExpected(side: Side, pcs: seq<Pc>, d: bool)
    requires !side.starved
    ensures Expected(side, pcs, d)
  {
  }

  lemma AllocOkWaits(s: State, t: nat)
    requires Waiting(s) && t < |s.pcs| && s.pcs[t].Allocating?
    ensures Waiting(Step(s, AllocOk(t)))
  {
    hide Expected;
    var s1 := Step(s, AllocOk(t));
    StillExpected(s.rd, s1.rd, s.pcs, s1.pcs, false);
    StillExpected(s.wr, s1.wr, s.pcs, s1.pcs, true);
  }

  lemma AllocFailWaits(s: State, t: nat)
    requires Inv(s) && Waiting(s) && Enabled(s, AllocFail(t))
    ensures Waiting(Step(s, AllocFail(t)))
  {
    var d := s.pcs[t].d;
    var side := SideOf(s, d).(count := SideOf(s, d).count - 1);
    var s1 := With(s, d, side).(pcs := At(s.pcs, t, Idle));
    hide Expected, Allocs, Freed;
    StillExpected(s.rd, s1.rd, s.pcs, s1.pcs, false);
    StillExpected(s.wr, s1.wr, s.pcs, s1.pcs, true);
    FreedRequestWaits(s1, d);
    SleepWaits(FreedRequest(s1, d), t, d, Refused(SideOf(FreedRequest(s1, d), d)));
  }

  lemma FreeWaits(s: State, d: bool)
    requires Inv(s) && Waiting(s) && Enabled(s, Free(d))
    ensures Waiting(Step(s, Free(d)))
  {
    hide Expected, Allocs;
    var side := SideOf(s, d).(count := SideOf(s, d).count - 1, live := SideOf(s, d).live - 1);
    StillExpected(SideOf(s, d), side, s.pcs, s.pcs, d);
    FreedRequestWaits(With(s, d, side), d);
  }

  lemma ResizeWaits(s: State, nr: nat)
    requires Inv(s) && Waiting(s)
    ensures Waiting(Step(s, Resize(nr)))
  {
    hide Waiting, Expected, Allocs;
    var n := AtLeastMin(nr);
    var (rd, r) := Resized(s.rd, n);
    var (wr, w) := Resized(s.wr, n);
    WakeWaits(s, false, rd, r);
    var s1 := s.(rd := rd, pcs := WakeUp(s.pcs, r, false));
    WakeWaits(s1, true, wr, w);
    SameWaiting(s1.(wr := wr, pcs := WakeUp(s1.pcs, w, true)), Step(s, Resize(nr)));
  }

  lemma SameWaiting(s: State, s1: State)
    requires Waiting(s) && s1.rd == s.rd && s1.wr == s.wr && s1.pcs == s.pcs
    ensures Waiting(s1)
  {
  }

  lemma {:induction false} RunWaits(s: State, ops: seq<Op>)
    requires Inv(s) && Waiting(s) && Legal(s, ops) && AllWait(ops)
    ensures Waiting(Run(s, ops))
    decreases |ops|
  {
    if ops != [] {
      hide Waiting;
      match ops[0] {
        case Get(t, d, _, a) => GetWaits(s, t, d, a);
        case AllocOk(t) => AllocOkWaits(s, t);
        case AllocFail(t) => AllocFailWaits(s, t);
        case Free(d) => FreeWaits(s, d);
        case Resize(nr) => ResizeWaits(s, nr);
      }
      StepKeeps(s, ops[0]);
      RunWaits(Step(s, ops[0]), ops[1..]);
    }
  }

  /** Exactly when, in every run whose tasks all wait: once all is quiet, somebody sleeps for a
      direction if and only if it is marked as starved. */
  lemma SleepersExactly(nr: nat, n: nat, ops: seq<Op>, d: bool)
    requires Legal(Initial(nr, n), ops) && AllWait(ops) && Quiet(Run(Initial(nr, n), ops))
    ensures var s := Run(Initial(nr, n), ops);
            SideOf(s, d).starved <==> exists t :: 0 <= t < |s.pcs| && s.pcs[t] == Asleep(d)
  {
    InitialInv(nr, n);
    RunKeeps(Initial(nr, n), ops);
    RunWaits(Initial(nr, n), ops);
    hide Run, Inv, Waiting, Quiet;
    var s := Run(Initial(nr, n), ops);
    if SideOf(s, d).starved { var t := StarvedSleeper(s, d); }
    forall t | 0 <= t < |s.pcs| && s.pcs[t] == Asleep(d) ensures SideOf(s, d).starved {
      OnlyTheStarvedSleep(nr, n, ops, t, d);
    }
  }

  lemma StarvedSleeper(s: State, d: bool) returns (t: nat)
    requires Inv(s) && Waiting(s) && Quiet(s) && SideOf(s, d).starved
    ensures t < |s.pcs| && s.pcs[t] == Asleep(d)
  {
    hide Allocs;
    t := SideOf(s, d).wait[0];
    assert t in SideOf(s, d).wait;
  }

  /** So without refusals nobody is. */
  lemma NobodySleepsForever(nr: nat, n: nat, ops: seq<Op>)
    requires Legal(Initial(nr, n), ops) && NoRefusals(ops) && Quiet(Run(Initial(nr, n), ops))
    ensures var s := Run(Initial(nr, n), ops); forall t :: 0 <= t < |s.pcs| ==> s.pcs[t] == Idle
  {
    var s := Run(Initial(nr, n), ops);
    NeverStarved(Initial(nr, n), ops);
    forall t | 0 <= t < |s.pcs| ensures s.pcs[t] == Idle {
      OnlyTheStarvedSleep(nr, n, ops, t, false);
      OnlyTheStarvedSleep(nr, n, ops, t, true);
    }
  }

  /** With one refusal somebody is: a single task, refused with nothing outstanding, sleeps on. */
  lemma OneRefusalIsEnough(nr: nat, d: bool)
    ensures var ops := [Get(0, d, true, Answers(No, false))];
            && Legal(Initial(nr, 1), ops)
            && Quiet(Run(Initial(nr, 1), ops)) && Run(Initial(nr, 1), ops).pcs == [Asleep(d)]
  {
    var ops := [Get(0, d, true, Answers(No, false))];
    var s := Step(Initial(nr, 1), ops[0]);
    assert ops[1..] == [];
    assert Run(Initial(nr, 1), ops) == Run(s, []) == s;
  }

  // ---------- struct request_list, in place ----------

  class RequestList {
    var rd: Side
    var wr: Side
    var nrRequests: nat

    constructor (nr: nat)
      ensures rd == wr == Side(0, 0, false, false, []) && nrRequests == AtLeastMin(nr)
    {
      rd, wr := Side(0, 0, false, false, []), Side(0, 0, false, false, []);
      nrRequests := if nr < BLKDEV_MIN_RQ then BLKDEV_MIN_RQ else nr;
    }

    function Of(d: bool): Side
      reads this
    {
      if d then wr else rd
    }

    method Set(d: bool, side: Side)
      modifies `rd, `wr
      ensures Of(d) == side && Of(!d) == old(Of(!d))
    {
      if d { wr := side; } else { rd := side; }
    }

    /** The locked part of get_request. */
    method GetRequest(d: bool, a: Answers) returns (ok: bool)
      modifies `rd, `wr
      ensures (Of(d), ok) == TryGet(old(Of(d)), nrRequests, a) && Of(!d) == old(Of(!d))
      ensures ok <==> old(Grants(Of(d), nrRequests, a))
      ensures Of(d).full <==> old(Of(d).full || (a.mayQueue != No && Of(d).count + 1 >= nrRequests))
      ensures ok ==> Of(d).count == old(Of(d).count) + 1 && !Of(d).starved
      ensures !ok && nrRequests >= BLKDEV_MIN_RQ ==> Of(d).count == old(Of(d).count) && (Of(d).count > 0 || Of(d).starved)
    {
      var s := Of(d);
      GrantedExactly(s, nrRequests, a);
      if a.mayQueue == No {
        if s.count == 0 { Set(d, s.(starved := true)); }
        return false;
      }
      if s.count + 1 >= CongestionOn(nrRequests) && s.count + 1 >= nrRequests {
        if !s.full {
          s := s.(full := true);
          Set(d, s);
        } else if a.mayQueue != Must && !a.batching {
          return false;
        }
      }
      if s.count >= 3 * nrRequests / 2 { return false; }
      Set(d, s.(count := s.count + 1, starved := false));
      ok := true;
    }

    /** __freed_request. */
    method FreedSide(d: bool) returns (woken: Option<nat>)
      modifies `rd, `wr
      ensures (Of(d), woken) == Freed(old(Of(d)), nrRequests) && Of(!d) == old(Of(!d))
      ensures woken == old(if Of(d).count < nrRequests && Of(d).wait != [] then Some(Of(d).wait[0]) else None)
      ensures Of(d).full <==> old(Of(d).full && Of(d).count >= nrRequests)
    {
      var s := Of(d);
      woken := None;
      if s.count + 1 <= nrRequests {
        if s.wait != [] {
          woken := Some(s.wait[0]);
          s := s.(wait := s.wait[1..]);
        }
        Set(d, s.(full := false));
      }
    }

    /** freed_request: the tasks woken in this direction and in the other. */
    method FreedRequest(d: bool) returns (woken: Option<nat>, other: Option<nat>)
      requires Of(d).count > 0
      modifies `rd, `wr
      ensures var released := old(Of(d)).(count := old(Of(d)).count - 1);
              (Of(d), woken) == Freed(released, nrRequests)
      ensures woken == old(if Of(d).count <= nrRequests && Of(d).wait != [] then Some(Of(d).wait[0]) else None)
      ensures other.Some? ==> old(Of(!d).starved && Of(!d).wait != []) && other.value == old(Of(!d).wait)[0]
      ensures old(Of(!d)).starved ==> (Of(!d), other) == Freed(old(Of(!d)), nrRequests)
      ensures !old(Of(!d)).starved ==> Of(!d) == old(Of(!d)) && other == None
    {
      Set(d, Of(d).(count := Of(d).count - 1));
      woken := FreedSide(d);
      other := None;
      if Of(!d).starved { other := FreedSide(!d); }
    }

    /** queue_requests_store. */
    method QueueRequestsStore(nr: nat) returns (reader: Option<nat>, writer: Option<nat>)
      modifies this
      ensures nrRequests == AtLeastMin(nr)
      ensures (rd, reader) == Resized(old(rd), nrRequests) && (wr, writer) == Resized(old(wr), nrRequests)
      ensures (rd.full <==> rd.count >= nrRequests) && (wr.full <==> wr.count >= nrRequests)
    {
      nrRequests := if nr < BLKDEV_MIN_RQ then BLKDEV_MIN_RQ else nr;
      reader := StoreSide(false);
      writer := StoreSide(true);
    }

    method StoreSide(d: bool) returns (woken: Option<nat>)
      modifies `rd, `wr
      ensures (Of(d), woken) == Resized(old(Of(d)), nrRequests) && Of(!d) == old(Of(!d))
    {
      var s := Of(d);
      woken := None;
      if s.count >= nrRequests {
        Set(d, s.(full := true));
      } else {
        if s.wait != [] {
          woken := Some(s.wait[0]);
          s := s.(wait := s.wait[1..]);
        }
        Set(d, s.(full := false));
      }
    }
  }
}
