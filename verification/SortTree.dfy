/** The block schedulers' sector-sorted trees, as sequences: rebalancing is left out. */
module SortTree {
  import opened Options

  /** A queued request; `sync` is its data direction. */
  datatype Request = Request(id: nat, sector: nat, sync: bool)

  /** The tree: distinct sectors in increasing order. */
  ghost predicate Sorted(list: seq<Request>) {
    forall i, j :: 0 <= i < j < |list| ==> list[i].sector < list[j].sector
  }

  function Without(list: seq<Request>, i: nat): seq<Request>
    requires i < |list|
  {
    list[..i] + list[i + 1..]
  }

  lemma InWithout(list: seq<Request>, i: nat, x: Request)
    requires i < |list| && Sorted(list)
    ensures x in Without(list, i) <==> x in list && x != list[i]
  {
  }

  function IndexOf(list: seq<Request>, x: Request): nat
    requires x in list
    ensures IndexOf(list, x) < |list| && list[IndexOf(list, x)] == x
  {
    if list[0] == x then 0 else 1 + IndexOf(list[1..], x)
  }

  function Dropped(list: seq<Request>, x: Request): seq<Request> {
    if x in list then Without(list, IndexOf(list, x)) else list
  }

  /** The place in the tree for sector s. */
  function PlaceFor(list: seq<Request>, s: nat): nat
    ensures PlaceFor(list, s) <= |list|
  {
    if list == [] || list[0].sector >= s then 0 else 1 + PlaceFor(list[1..], s)
  }

  function Inserted(list: seq<Request>, rq: Request): seq<Request> {
    var k := PlaceFor(list, rq.sector); list[..k] + [rq] + list[k..]
  }

  predicate HasAlias(list: seq<Request>, s: nat) {
    PlaceFor(list, s) < |list| && list[PlaceFor(list, s)].sector == s
  }

  function Alias(list: seq<Request>, s: nat): Request
    requires HasAlias(list, s)
  {
    list[PlaceFor(list, s)]
  }

  lemma {:induction false} PlaceSplits(list: seq<Request>, s: nat)
    requires Sorted(list)
    ensures var k := PlaceFor(list, s);
            (forall j :: 0 <= j < k ==> list[j].sector < s) && (forall j :: k <= j < |list| ==> list[j].sector >= s)
  {
    if list != [] && list[0].sector < s {
      PlaceSplits(list[1..], s);
      var k := PlaceFor(list, s);
      forall j | 0 <= j < k ensures list[j].sector < s { if j > 0 { assert list[j] == list[1..][j - 1]; } }
      forall j | k <= j < |list| ensures list[j].sector >= s { assert list[j] == list[1..][j - 1]; }
    }
  }

  lemma WithoutCounts(list: seq<Request>, i: nat)
    requires i < |list|
    ensures multiset(Without(list, i)) == multiset(list) - multiset{list[i]}
  {
    assert list == list[..i] + [list[i]] + list[i + 1..];
  }

  lemma WithoutSorted(list: seq<Request>, i: nat)
    requires i < |list| && Sorted(list)
    ensures Sorted(Without(list, i))
  {
  }

  lemma {:induction false} InsertedSorted(list: seq<Request>, rq: Request)
    requires Sorted(list) && !HasAlias(list, rq.sector)
    ensures Sorted(Inserted(list, rq))
    ensures multiset(Inserted(list, rq)) == multiset(list) + multiset{rq}
  {
    PlaceSplits(list, rq.sector);
    InsertedCounts(list, rq);
    hide PlaceFor;
    var k, r := PlaceFor(list, rq.sector), Inserted(list, rq);
    forall i, j | 0 <= i < j < |r| ensures r[i].sector < r[j].sector {
      assert r[i] == if i < k then list[i] else if i == k then rq else list[i - 1];
      assert r[j] == if j < k then list[j] else if j == k then rq else list[j - 1];
    }
  }

  lemma InInserted(list: seq<Request>, rq: Request, x: Request)
    ensures x in Inserted(list, rq) <==> x in list || x == rq
  {
  }

  /** After the alias is gone, none is left. */
  lemma AliasGone(list: seq<Request>, s: nat)
    requires Sorted(list) && HasAlias(list, s)
    ensures !HasAlias(Without(list, PlaceFor(list, s)), s)
    ensures IndexOf(list, Alias(list, s)) == PlaceFor(list, s)
  {
  }

  lemma WithoutLength(list: seq<Request>, i: nat)
    requires i < |list|
    ensures |Without(list, i)| == |list| - 1
  {
  }

  lemma OneHasAlias(list: seq<Request>, s: nat)
    requires |list| == 1
    ensures HasAlias(list, s) <==> list[0].sector == s
  {
  }

  lemma InsertedCounts(list: seq<Request>, rq: Request)
    ensures multiset(Inserted(list, rq)) == multiset(list) + multiset{rq}
  {
    var k := PlaceFor(list, rq.sector);
    assert list == list[..k] + list[k..];
  }

  // ---------- neighbours ----------

  function Before(list: seq<Request>, i: nat): Option<Request>
    requires i < |list|
  {
    if i > 0 then Some(list[i - 1]) else None
  }

  /** The request after the one at i, or the first one when there is none. */
  function AfterOrFirst(list: seq<Request>, i: nat): Option<Request>
    requires i < |list|
  {
    if i + 1 < |list| then Some(list[i + 1]) else if i > 0 then Some(list[0]) else None
  }

  lemma NeighboursRemain(list: seq<Request>, i: nat)
    requires i < |list| && Sorted(list)
    ensures AfterOrFirst(list, i) == None <==> Without(list, i) == []
    ensures AfterOrFirst(list, i).Some? ==> AfterOrFirst(list, i).value in Without(list, i)
    ensures Before(list, i).Some? ==> AfterOrFirst(list, i).Some? && Before(list, i).value in Without(list, i)
  {
    if i + 1 < |list| { InWithout(list, i, list[i + 1]); }
    if i > 0 {
      InWithout(list, i, list[i - 1]);
      InWithout(list, i, list[0]);
    }
  }

  // ---------- lists in step with the tree ----------

  /** A request whose sector has changed, where it is. */
  function Renamed(list: seq<Request>, rq: Request, rq': Request): seq<Request> {
    if rq in list then list[IndexOf(list, rq) := rq'] else list
  }

  lemma RenamedCounts(list: seq<Request>, rq: Request, rq': Request)
    requires rq in list
    ensures multiset(Renamed(list, rq, rq')) == multiset(list) - multiset{rq} + multiset{rq'}
  {
    hide IndexOf;
  }

  lemma OneFewer(a: multiset<Request>, out: multiset<Request>, rq: Request)
    requires rq in a
    ensures a + out - multiset{rq} == a - multiset{rq} + out
  {
  }

  lemma FifoDrops(fifo: seq<Request>, sort: seq<Request>, out: multiset<Request>, rq: Request)
    requires multiset(fifo) == multiset(sort) + out && rq in sort
    ensures multiset(Dropped(fifo, rq)) == multiset(Without(sort, IndexOf(sort, rq))) + out
  {
    hide Without, IndexOf;
    assert rq in multiset(sort);
    assert rq in multiset(fifo);
    WithoutCounts(sort, IndexOf(sort, rq));
    WithoutCounts(fifo, IndexOf(fifo, rq));
    OneFewer(multiset(sort), out, rq);
  }
}
