/** The anticipatory scheduler's choice of the next request (block/as-iosched.c), for one data
    direction: the sorted tree, the cached best request and the position of the disk head. */
module Anticipatory {
  import opened Options
  import opened SortTree

  const MAXBACK := 1024 * 1024
  const BACK_PENALTY := 2

  // ---------- preference ----------

  predicate Wraps(last: nat, s: nat) { s < last && s + MAXBACK < last }

  function Distance(last: nat, s: nat): nat { if s >= last then s - last else (last - s) * BACK_PENALTY }

  function ChooseReq(last: nat, rq1: Option<Request>, rq2: Option<Request>): Option<Request> {
    if rq1 == None || rq1 == rq2 then rq2
    else if rq2 == None then rq1
    else
      var s1, s2 := rq1.value.sector, rq2.value.sector;
      var w1, w2 := Wraps(last, s1), Wraps(last, s2);
      if !w1 && w2 then rq1
      else if !w2 && w1 then rq2
      else if w1 && w2 then (if s1 <= s2 then rq1 else rq2)
      else
        var d1, d2 := Distance(last, s1), Distance(last, s2);
        if d1 < d2 then rq1 else if d2 < d1 then rq2 else if s1 >= s2 then rq1 else rq2
  }

  /** The order as_choose_req follows: sectors within reach before those that need a full sweep
      back; the former by distance, the farther sector on a tie; the latter by sector. */
  predicate Prefers(last: nat, s1: nat, s2: nat) {
    if Wraps(last, s1) then Wraps(last, s2) && s1 <= s2
    else
      || Wraps(last, s2) || Distance(last, s1) < Distance(last, s2)
      || (Distance(last, s1) == Distance(last, s2) && s1 >= s2)
  }

  /** It is a linear order on sectors. */
  lemma PrefersIsLinear(last: nat, a: nat, b: nat, c: nat)
    ensures Prefers(last, a, b) || Prefers(last, b, a)
    ensures Prefers(last, a, b) && Prefers(last, b, a) ==> a == b
    ensures Prefers(last, a, b) && Prefers(last, b, c) ==> Prefers(last, a, c)
  {
  }

  /** `next` is the most preferred request of the whole list. */
  ghost predicate IsBest(last: nat, list: seq<Request>, next: Option<Request>) {
    && (next == None <==> list == [])
    && (next.Some? ==> next.value in list && forall x :: x in list ==> Prefers(last, next.value.sector, x.sector))
  }

  /** as_find_next_rq: only the two neighbours, or the first node when there is none after. */
  function FindNext(last: nat, list: seq<Request>, i: nat): Option<Request>
    requires i < |list|
  {
    ChooseReq(last, AfterOrFirst(list, i), Before(list, i))
  }

  // ---------- the cache after a removal ----------

  lemma FindNextRemains(last: nat, list: seq<Request>, i: nat)
    requires i < |list| && Sorted(list)
    ensures FindNext(last, list, i) == None <==> Without(list, i) == []
    ensures FindNext(last, list, i).Some? ==> FindNext(last, list, i).value in Without(list, i)
  {
    NeighboursRemain(list, i);
    hide AfterOrFirst, Before, Without;
  }

  /** Removing the best request leaves the best of the rest among its two neighbours and the first node. */
  lemma BestRemoved(last: nat, list: seq<Request>, i: nat)
    requires i < |list| && Sorted(list) && IsBest(last, list, Some(list[i]))
    ensures IsBest(last, Without(list, i), FindNext(last, list, i))
  {
    var next := FindNext(last, list, i);
    FindNextRemains(last, list, i);
    if next.Some? {
      forall x | x in Without(list, i) ensures Prefers(last, next.value.sector, x.sector) {
        InWithout(list, i, x);
        var j :| 0 <= j < |list| && list[j] == x;
        BeatsOthers(last, list, i, j);
      }
    }
  }

  lemma BeatsOthers(last: nat, list: seq<Request>, i: nat, j: nat)
    requires i < |list| && j < |list| && i != j && Sorted(list) && IsBest(last, list, Some(list[i]))
    ensures FindNext(last, list, i).Some? && Prefers(last, FindNext(last, list, i).value.sector, list[j].sector)
  {
    assert list[j] in list;
    if i > 0 { assert list[i - 1] in list; }
    if i + 1 < |list| { assert list[i + 1] in list; }
    assert list[0] in list;
  }

  /** Removing any other leaves the best the best. */
  lemma OtherRemoved(last: nat, list: seq<Request>, i: nat, next: Option<Request>)
    requires i < |list| && Sorted(list) && IsBest(last, list, next) && next != Some(list[i])
    ensures IsBest(last, Without(list, i), next)
  {
  }

  // ---------- the cache after a dispatch ----------

  /** No queued request starts strictly inside the one at i, which ends at `last`. */
  ghost predicate NoneInside(list: seq<Request>, i: nat, last: nat)
    requires i < |list|
  {
    forall j :: i < j < |list| ==> list[j].sector >= last
  }

  /** With a request inside, the cache survives only if there is just one within reach, and it is
      closer behind, at twice the price, than the one after it is ahead ... */
  ghost predicate OneCloseInside(list: seq<Request>, i: nat, last: nat)
    requires i < |list|
  {
    && i + 1 < |list| && last <= list[i + 1].sector + MAXBACK
    && (i + 2 < |list| ==> list[i + 2].sector - last > (last - list[i + 1].sector) * BACK_PENALTY)
  }

  /** ... or if all are out of reach, and the first of them is a neighbour. */
  predicate AllFarBehind(list: seq<Request>, i: nat, last: nat)
    requires i < |list|
  {
    i <= 1 && i + 1 < |list| && Wraps(last, list[|list| - 1].sector)
  }

  ghost predicate StaysBest(list: seq<Request>, i: nat, last: nat)
    requires i < |list|
  {
    NoneInside(list, i, last) || OneCloseInside(list, i, last) || AllFarBehind(list, i, last)
  }

  lemma DispatchBest(list: seq<Request>, i: nat, last: nat)
    requires i < |list| && Sorted(list) && list[i].sector <= last && StaysBest(list, i, last)
    ensures IsBest(last, Without(list, i), FindNext(last, list, i))
  {
    hide StaysBest;
    var next := FindNext(last, list, i);
    FindNextRemains(last, list, i);
    if next.Some? {
      forall x | x in Without(list, i) ensures Prefers(last, next.value.sector, x.sector) {
        InWithout(list, i, x);
        var j :| 0 <= j < |list| && list[j] == x;
        DispatchBeats(list, i, last, j);
      }
    }
  }

  lemma DispatchBeats(list: seq<Request>, i: nat, last: nat, j: nat)
    requires i < |list| && j < |list| && i != j && Sorted(list) && list[i].sector <= last && StaysBest(list, i, last)
    ensures FindNext(last, list, i).Some? && Prefers(last, FindNext(last, list, i).value.sector, list[j].sector)
  {
  }

  /** Otherwise some other request is better than the neighbour chosen. */
  lemma DispatchLoses(list: seq<Request>, i: nat, last: nat) returns (j: nat)
    requires i < |list| && Sorted(list) && list[i].sector <= last && !StaysBest(list, i, last)
    ensures j < |list| && j != i && FindNext(last, list, i).Some?
    ensures !Prefers(last, FindNext(last, list, i).value.sector, list[j].sector)
  {
    if last <= list[i + 1].sector + MAXBACK {
      j := i + 2;
    } else if !Wraps(last, list[|list| - 1].sector) {
      j := |list| - 1;
    } else {
      j := 0;
    }
  }

  /** Exactly when the cache computed by a dispatch is the best of all that stay queued. */
  lemma DispatchBestExactly(list: seq<Request>, i: nat, last: nat)
    requires i < |list| && Sorted(list) && list[i].sector <= last
    ensures IsBest(last, Without(list, i), FindNext(last, list, i)) <==> StaysBest(list, i, last)
  {
    if StaysBest(list, i, last) {
      DispatchBest(list, i, last);
    } else {
      var j := DispatchLoses(list, i, last);
      InWithout(list, i, list[j]);
    }
  }

  /** A failing input: a request of 100 sectors at 0 with two others inside, of which the farther
      one, next to it in the tree, is cached. */
  lemma TwoInsideMislead()
    ensures var list := [Request(0, 0, true), Request(1, 10, true), Request(2, 90, true)];
            && Sorted(list) && FindNext(100, list, 0) == Some(list[1])
            && !Prefers(100, list[1].sector, list[2].sector) && !IsBest(100, Without(list, 0), FindNext(100, list, 0))
  {
    var list := [Request(0, 0, true), Request(1, 10, true), Request(2, 90, true)];
    assert Without(list, 0)[1] == list[2];
  }
}
