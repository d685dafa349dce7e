/** The deadline scheduler (block/deadline-iosched.c): per direction a sorted tree and a FIFO with
    expiry times, the next request in sector order, and the batching and starvation counters. A
    request's direction is true for reads. */
module Deadline {
  import opened Options
  import opened SortTree

  /** A FIFO entry with its expiry time. */
  datatype Timed = Timed(rq: Request, time: nat)

  datatype Lane = Lane(sort: seq<Request>, fifo: seq<Timed>, next: Option<Request>)

  // ---------- FIFO lists ----------

  function Rqs(f: seq<Timed>): seq<Request> { if f == [] then [] else [f[0].rq] + Rqs(f[1..]) }

  function DropTimed(f: seq<Timed>, rq: Request): seq<Timed> {
    if f == [] then [] else if f[0].rq == rq then f[1..] else [f[0]] + DropTimed(f[1..], rq)
  }

  /** `what` goes right behind the entry of rq, if there is one. */
  function PutBehind(f: seq<Timed>, rq: Request, what: Timed): seq<Timed> {
    if f == [] then [] else if f[0].rq == rq then [f[0], what] + f[1..] else [f[0]] + PutBehind(f[1..], rq, what)
  }

  function TimeOf(f: seq<Timed>, rq: Request): nat { if f == [] then 0 else if f[0].rq == rq then f[0].time else TimeOf(f[1..], rq) }

  /** In the order of expiry, none earlier than `lo` and none later than `hi`. */
  ghost predicate InTime(f: seq<Timed>, lo: nat, hi: nat) { f == [] || (lo <= f[0].time <= hi && InTime(f[1..], f[0].time, hi)) }

  lemma {:induction false} InTimeMeans(f: seq<Timed>, lo: nat, hi: nat, i: nat, j: nat)
    requires InTime(f, lo, hi) && i <= j < |f|
    ensures lo <= f[i].time <= f[j].time <= hi
  {
    if j > 0 { InTimeMeans(f[1..], f[0].time, hi, if i > 0 then i - 1 else 0, j - 1); }
  }

  lemma {:induction false} Looser(f: seq<Timed>, lo: nat, hi: nat, lo': nat, hi': nat)
    requires InTime(f, lo, hi) && lo' <= lo && hi <= hi'
    ensures InTime(f, lo', hi')
  {
    if f != [] { Looser(f[1..], f[0].time, hi, f[0].time, hi'); }
  }

  lemma {:induction false} RqsCount(f: seq<Timed>)
    ensures |Rqs(f)| == |f| && forall i :: 0 <= i < |f| ==> Rqs(f)[i] == f[i].rq
  {
    if f != [] { RqsCount(f[1..]); }
  }

  lemma {:induction false} DropCounts(f: seq<Timed>, rq: Request)
    ensures multiset(Rqs(DropTimed(f, rq))) == multiset(Rqs(f)) - multiset{rq}
  {
    if f != [] {
      assert Rqs(f) == [f[0].rq] + Rqs(f[1..]);
      if f[0].rq != rq {
        DropCounts(f[1..], rq);
        var g := [f[0]] + DropTimed(f[1..], rq);
        assert g[0] == f[0] && g[1..] == DropTimed(f[1..], rq);
      }
    }
  }

  lemma {:induction false} DropKeepsTime(f: seq<Timed>, rq: Request, lo: nat, hi: nat)
    requires InTime(f, lo, hi)
    ensures InTime(DropTimed(f, rq), lo, hi)
  {
    if f != [] {
      if f[0].rq == rq {
        Looser(f[1..], f[0].time, hi, lo, hi);
      } else {
        DropKeepsTime(f[1..], rq, f[0].time, hi);
        assert ([f[0]] + DropTimed(f[1..], rq))[1..] == DropTimed(f[1..], rq);
      }
    }
  }

  lemma {:induction false} PutCounts(f: seq<Timed>, rq: Request, what: Timed)
    requires rq in Rqs(f)
    ensures multiset(Rqs(PutBehind(f, rq, what))) == multiset(Rqs(f)) + multiset{what.rq}
  {
    assert Rqs(f) == [f[0].rq] + Rqs(f[1..]);
    var g := PutBehind(f, rq, what);
    if f[0].rq == rq {
      assert g[1..] == [what] + f[1..] && g[1..][1..] == f[1..];
      assert Rqs(g) == [f[0].rq] + ([what.rq] + Rqs(f[1..]));
    } else {
      PutCounts(f[1..], rq, what);
      assert g[1..] == PutBehind(f[1..], rq, what);
    }
  }

  /** A request put right behind another with the other's time keeps the order. */
  lemma {:induction false} PutKeepsTime(f: seq<Timed>, rq: Request, moved: Request, lo: nat, hi: nat)
    requires InTime(f, lo, hi)
    ensures InTime(PutBehind(f, rq, Timed(moved, TimeOf(f, rq))), lo, hi)
  {
    if f != [] {
      var what := Timed(moved, TimeOf(f, rq));
      var g := PutBehind(f, rq, what);
      if f[0].rq == rq {
        assert g[1..] == [what] + f[1..] && g[1..][1..] == f[1..];
      } else {
        PutKeepsTime(f[1..], rq, moved, f[0].time, hi);
        assert g[1..] == PutBehind(f[1..], rq, what);
      }
    }
  }

  lemma {:induction false} AppendKeepsTime(f: seq<Timed>, x: Timed, lo: nat, hi: nat)
    requires InTime(f, lo, hi) && lo <= x.time && hi <= x.time
    ensures InTime(f + [x], lo, x.time)
  {
    if f == [] {
      assert f + [x] == [x] && [x][1..] == [];
    } else {
      assert (f + [x])[1..] == f[1..] + [x];
      AppendKeepsTime(f[1..], x, f[0].time, hi);
    }
  }

  // ---------- one direction ----------

  function Latter(list: seq<Request>, i: nat): Option<Request>
    requires i < |list|
  {
    if i + 1 < |list| then Some(list[i + 1]) else None
  }

  /** Tree and FIFO hold the same requests, but for those on their way back into the tree; the FIFO
      is in order, and the next request is queued. */
  ghost predicate LaneBut(l: Lane, limit: nat, out: multiset<Request>) {
    && Sorted(l.sort) && multiset(Rqs(l.fifo)) == multiset(l.sort) + out && InTime(l.fifo, 0, limit)
    && (l.next.Some? ==> l.next.value in l.sort)
  }

  ghost predicate LaneOk(l: Lane, limit: nat) { LaneBut(l, limit, multiset{}) }

  /** deadline_remove_request. */
  function RemoveRequest(l: Lane, rq: Request): Lane
    requires rq in l.sort
  {
    var i := IndexOf(l.sort, rq);
    Lane(Without(l.sort, i), DropTimed(l.fifo, rq), if l.next == Some(rq) then Latter(l.sort, i) else l.next)
  }

  /** deadline_move_request as far as the request's own direction goes. */
  function MoveOut(l: Lane, rq: Request): Lane
    requires rq in l.sort
  {
    RemoveRequest(l.(next := Latter(l.sort, IndexOf(l.sort, rq))), rq)
  }

  lemma LatterStays(list: seq<Request>, i: nat)
    requires i < |list| && Sorted(list)
    ensures Latter(list, i).Some? ==> Latter(list, i).value in Without(list, i) && Latter(list, i).value != list[i]
  {
  }

  lemma RemoveKeeps(l: Lane, rq: Request, limit: nat, out: multiset<Request>)
    requires LaneBut(l, limit, out) && rq in l.sort
    ensures LaneBut(RemoveRequest(l, rq), limit, out)
  {
    hide InTime, Rqs, DropTimed, Without, Sorted, IndexOf;
    var i := IndexOf(l.sort, rq);
    WithoutCounts(l.sort, i);
    WithoutSorted(l.sort, i);
    OneFewer(multiset(l.sort), out, rq);
    DropCounts(l.fifo, rq);
    DropKeepsTime(l.fifo, rq, 0, limit);
    LatterStays(l.sort, i);
    if l.next.Some? { InWithout(l.sort, i, l.next.value); }
  }

  lemma MoveOutKeeps(l: Lane, rq: Request, limit: nat, out: multiset<Request>)
    requires LaneBut(l, limit, out) && rq in l.sort
    ensures LaneBut(MoveOut(l, rq), limit, out) && MoveOut(l, rq).sort == Without(l.sort, IndexOf(l.sort, rq))
  {
    hide InTime, Rqs, DropTimed;
    var i := IndexOf(l.sort, rq);
    LatterStays(l.sort, i);
    if i + 1 < |l.sort| { assert l.sort[i + 1] in l.sort; }
    RemoveKeeps(l.(next := Latter(l.sort, i)), rq, limit, out);
  }

  /** Joining tree and FIFO; the request's place in the tree is free. */
  function Join(l: Lane, rq: Request, time: nat): Lane { l.(sort := Inserted(l.sort, rq), fifo := l.fifo + [Timed(rq, time)]) }

  lemma JoinKeeps(l: Lane, rq: Request, time: nat, limit: nat)
    requires LaneOk(l, limit) && !HasAlias(l.sort, rq.sector) && limit <= time
    ensures LaneOk(Join(l, rq, time), time)
  {
    hide Rqs, Inserted, InTime, Sorted;
    InsertedSorted(l.sort, rq);
    RqsAppend(l.fifo, Timed(rq, time));
    AppendKeepsTime(l.fifo, Timed(rq, time), 0, limit);
    if l.next.Some? { InInserted(l.sort, rq, l.next.value); }
  }

  lemma {:induction false} RqsAppend(f: seq<Timed>, x: Timed)
    ensures Rqs(f + [x]) == Rqs(f) + [x.rq]
  {
    if f == [] {
      assert f + [x] == [x] && [x][1..] == [];
    } else {
      assert (f + [x])[1..] == f[1..] + [x];
      RqsAppend(f[1..], x);
    }
  }

  /** deadline_merged_requests: the survivor takes the earlier time and the place that goes with it. */
  function MergedRequests(l: Lane, req: Request, next: Request): Lane
    requires next in l.sort
  {
    var f := if TimeOf(l.fifo, next) < TimeOf(l.fifo, req)
             then PutBehind(DropTimed(l.fifo, req), next, Timed(req, TimeOf(l.fifo, next))) else l.fifo;
    RemoveRequest(l.(fifo := f), next)
  }

  lemma {:induction false} TimeAfterDrop(f: seq<Timed>, rq: Request, other: Request)
    requires rq != other
    ensures TimeOf(DropTimed(f, rq), other) == TimeOf(f, other)
  {
    if f != [] && f[0].rq != rq {
      var g := [f[0]] + DropTimed(f[1..], rq);
      assert g[1..] == DropTimed(f[1..], rq);
      TimeAfterDrop(f[1..], rq, other);
    }
  }

  /** The list move: same requests, still in order. */
  lemma FifoMergeKeeps(f: seq<Timed>, req: Request, next: Request, limit: nat)
    requires InTime(f, 0, limit) && req != next && req in Rqs(f) && next in Rqs(f)
    ensures var g := PutBehind(DropTimed(f, req), next, Timed(req, TimeOf(f, next)));
            InTime(g, 0, limit) && multiset(Rqs(g)) == multiset(Rqs(f))
  {
    hide InTime, Rqs, DropTimed, PutBehind, TimeOf;
    var d := DropTimed(f, req);
    DropCounts(f, req);
    DropKeepsTime(f, req, 0, limit);
    TimeAfterDrop(f, req, next);
    assert req in multiset(Rqs(f)) && next in multiset(Rqs(d));
    PutCounts(d, next, Timed(req, TimeOf(f, next)));
    PutKeepsTime(d, next, req, 0, limit);
  }

  /** Merging keeps the direction's lists in step and the FIFO in order. */
  lemma MergeKeeps(l: Lane, req: Request, next: Request, limit: nat)
    requires LaneOk(l, limit) && req in l.sort && next in l.sort && req != next
    ensures LaneOk(MergedRequests(l, req, next), limit)
  {
    hide InTime, Rqs, DropTimed, PutBehind, TimeOf, Sorted;
    var f := l.fifo;
    if TimeOf(l.fifo, next) < TimeOf(l.fifo, req) {
      assert req in multiset(l.sort) && next in multiset(l.sort);
      assert req in multiset(Rqs(l.fifo)) && next in multiset(Rqs(l.fifo));
      FifoMergeKeeps(l.fifo, req, next, limit);
      f := PutBehind(DropTimed(l.fifo, req), next, Timed(req, TimeOf(l.fifo, next)));
    }
    RemoveKeeps(l.(fifo := f), next, limit, multiset{});
  }

  /** The survivor of a merge has the earlier of the two expiry times. */
  lemma EarlierTimeWins(l: Lane, req: Request, next: Request, limit: nat)
    requires LaneOk(l, limit) && req in l.sort && next in l.sort && req != next
    ensures var a, b := TimeOf(l.fifo, req), TimeOf(l.fifo, next);
            TimeOf(MergedRequests(l, req, next).fifo, req) == if b < a then b else a
  {
    hide InTime, Rqs, DropTimed, PutBehind, TimeOf, Sorted;
    assert req in multiset(l.sort) && next in multiset(l.sort);
    assert req in multiset(Rqs(l.fifo)) && next in multiset(Rqs(l.fifo));
    if TimeOf(l.fifo, next) < TimeOf(l.fifo, req) {
      var d, what := DropTimed(l.fifo, req), Timed(req, TimeOf(l.fifo, next));
      DropCounts(l.fifo, req);
      assert next in multiset(Rqs(d)) && multiset(Rqs(l.fifo))[req] <= 1 by { OncePerTree(l.sort, req); }
      assert req !in multiset(Rqs(d));
      TimeBehind(d, next, what);
      TimeAfterDrop(PutBehind(d, next, what), next, req);
    } else {
      TimeAfterDrop(l.fifo, next, req);
    }
  }

  lemma {:induction false} OncePerTree(list: seq<Request>, x: Request)
    requires Sorted(list)
    ensures multiset(list)[x] <= 1
  {
    if list != [] {
      assert list == [list[0]] + list[1..];
      OncePerTree(list[1..], x);
    }
  }

  lemma {:induction false} TimeBehind(f: seq<Timed>, rq: Request, what: Timed)
    requires rq in Rqs(f) && what.rq !in Rqs(f) && what.rq != rq
    ensures TimeOf(PutBehind(f, rq, what), what.rq) == what.time
  {
    var g := PutBehind(f, rq, what);
    assert Rqs(f) == [f[0].rq] + Rqs(f[1..]);
    if f[0].rq == rq {
      assert g[1..][0] == what;
    } else {
      assert g[1..] == PutBehind(f[1..], rq, what);
      TimeBehind(f[1..], rq, what);
    }
  }

  // ---------- front merges ----------

  function Retitled(f: seq<Timed>, rq: Request, rq': Request): seq<Timed> {
    if f == [] then [] else if f[0].rq == rq then [Timed(rq', f[0].time)] + f[1..] else [f[0]] + Retitled(f[1..], rq, rq')
  }

  lemma {:induction false} RetitledKeepsTime(f: seq<Timed>, rq: Request, rq': Request, lo: nat, hi: nat)
    requires InTime(f, lo, hi)
    ensures InTime(Retitled(f, rq, rq'), lo, hi)
  {
    if f != [] {
      var g := Retitled(f, rq, rq');
      if f[0].rq == rq {
        assert g[1..] == f[1..];
      } else {
        RetitledKeepsTime(f[1..], rq, rq', f[0].time, hi);
        assert g[1..] == Retitled(f[1..], rq, rq');
      }
    }
  }

  lemma {:induction false} RetitledCounts(f: seq<Timed>, rq: Request, rq': Request)
    requires rq in Rqs(f)
    ensures multiset(Rqs(Retitled(f, rq, rq'))) == multiset(Rqs(f)) - multiset{rq} + multiset{rq'}
  {
    var g := Retitled(f, rq, rq');
    assert Rqs(f) == [f[0].rq] + Rqs(f[1..]);
    if f[0].rq == rq {
      assert g[1..] == f[1..];
      assert Rqs(g) == [rq'] + Rqs(f[1..]);
    } else {
      RetitledCounts(f[1..], rq, rq');
      assert g[1..] == Retitled(f[1..], rq, rq');
      assert Rqs(g) == [f[0].rq] + Rqs(g[1..]);
    }
  }

  /** A request taken out of the tree, with its new sector. */
  function TakenOut(l: Lane, rq: Request, rq': Request): Lane
    requires rq in l.sort
  {
    Lane(Without(l.sort, IndexOf(l.sort, rq)), Retitled(l.fifo, rq, rq'), if l.next == Some(rq) then Some(rq') else l.next)
  }

  lemma TakenOutIs(l: Lane, rq: Request, rq': Request, limit: nat)
    requires LaneOk(l, limit) && rq in l.sort
    ensures var m := TakenOut(l, rq, rq'); LaneBut(m.(next := None), limit, multiset{rq'})
    ensures var m := TakenOut(l, rq, rq'); m.next.Some? ==> m.next.value == rq' || m.next.value in m.sort
  {
    hide InTime, Rqs, Retitled;
    var i := IndexOf(l.sort, rq);
    WithoutCounts(l.sort, i);
    WithoutSorted(l.sort, i);
    assert rq in multiset(l.sort);
    assert rq in multiset(Rqs(l.fifo));
    RetitledKeepsTime(l.fifo, rq, rq', 0, limit);
    RetitledCounts(l.fifo, rq, rq');
    if l.next.Some? { InWithout(l.sort, i, l.next.value); }
  }

  lemma PutBack(l: Lane, rq': Request, limit: nat)
    requires LaneBut(l.(next := None), limit, multiset{rq'}) && !HasAlias(l.sort, rq'.sector)
    requires l.next.Some? ==> l.next.value == rq' || l.next.value in l.sort
    ensures LaneOk(l.(sort := Inserted(l.sort, rq')), limit)
  {
    hide Rqs, Inserted, InTime, Sorted;
    InsertedSorted(l.sort, rq');
    if l.next.Some? { InInserted(l.sort, rq', l.next.value); }
  }
}
