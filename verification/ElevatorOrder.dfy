/** Where the elevator puts a request on the dispatch list (block/elevator.c). */
module ElevatorOrder {
  import opened Options
  import opened BarrierModel

  // ---------- elv_dispatch_sort ----------

  /** One sweep over the disk from `limit` up, and then again from the bottom. */
  predicate OneWay(a: int, b: int, limit: int) {
    if a >= limit then b < limit || a <= b else b < limit && a <= b
  }

  /** Nothing keeps a request of direction `write` from moving past this one. */
  predicate Passable(r: Request, write: bool) { r.write == write && !r.soft && !r.hard && !r.started }

  ghost predicate Sweeps(list: seq<Request>, from: nat, limit: int) {
    forall i, j :: from <= i < j < |list| ==> OneWay(list[i].sector, list[j].sector, limit)
  }

  /** The requests at the end of the list that can be passed, from index t on, lie in the order of one sweep:
      the new request goes among them, and they still do. It passes nothing before t. */
  lemma SortKeepsTheSweep(list: seq<Request>, rq: Request, limit: int, t: nat)
    requires t <= |list| && (forall i :: t <= i < |list| ==> Passable(list[i], rq.write))
    requires t > 0 ==> !Passable(list[t - 1], rq.write)
    requires Sweeps(list, t, limit)
    ensures var p := SortPos(list, rq, limit);
            t <= p && Sweeps(InsertAt(list, p, rq), t, limit)
    ensures var p := SortPos(list, rq, limit);
            forall i :: t <= i < |list| ==> (i < p <==> OneWay(list[i].sector, rq.sector, limit))
  {
    var p := SortPos(list, rq, limit);
    hide SortPos;
    forall i | t <= i < |list| ensures i < p <==> OneWay(list[i].sector, rq.sector, limit) {
      PassedOrNot(rq, list[i], limit);
      if i < p { PassedOrNot(rq, list[p - 1], limit); }
    }
    var l := InsertAt(list, p, rq);
    forall i, j | t <= i < j < |l| ensures OneWay(l[i].sector, l[j].sector, limit) {
      assert l[i] == if i < p then list[i] else if i == p then rq else list[i - 1];
      assert l[j] == if j < p then list[j] else if j == p then rq else list[j - 1];
      if i == p { Total(list[j - 1].sector, rq.sector, limit); }
    }
  }

  lemma PassedOrNot(rq: Request, pos: Request, limit: int)
    requires Passable(pos, rq.write)
    ensures StopsAt(rq, pos, limit) <==> OneWay(pos.sector, rq.sector, limit)
  {
  }

  lemma Total(a: int, b: int, limit: int)
    ensures OneWay(a, b, limit) || OneWay(b, a, limit)
  {
  }

  // ---------- __elv_add_request ----------

  /** A request that is a barrier of either kind, or that the scheduler does not know, is never sorted: it goes
      to the end of the list, which no later request is sorted past; an ordinary one goes to the scheduler;
      and only a request put at the front goes before others. A barrier becomes the boundary that sorting
      starts from. */
  lemma AdmittedWhere(q: Queue, s: Spec)
    ensures var q1, ordinary := Admit(q, s), s.at.Sort? && !s.soft && !s.hard && s.elvpriv;
            && (ordinary ==> q1.list == q.list && exists r :: q1.elv == q.elv + {r} && r.id == q.nextId && RangeOf(r) == AskedBy(s) && !r.soft)
            && (!ordinary ==> q1.elv == q.elv && |q1.list| == |q.list| + 1)
            && (!ordinary && !s.at.Front? ==>
                  var r := q1.list[|q.list|];
                  q1.list[..|q.list|] == q.list && r.id == q.nextId && RangeOf(r) == AskedBy(s) && r.soft && r.hard == s.hard)
            && (s.at.Front? ==>
                  q1.list[1..] == q.list && q1.list[0].id == q.nextId && RangeOf(q1.list[0]) == AskedBy(s) && q1.list[0].soft)
            && q1.ordcolor == (q.ordcolor != s.hard)
            && (if (s.soft || s.hard) && (s.kind.Fs? || s.kind.BarRq?)
                then q1.endSector == s.sector + s.sectors && q1.boundary == Some((s.kind, q.nextId))
                else q1.endSector == q.endSector && q1.boundary == q.boundary)
  {
    var q1, r := Admit(q, s), NewRequest(q, s);
    if EffectiveWhere(s).Sort? { assert q1.elv == q.elv + {r}; }
  }
}
