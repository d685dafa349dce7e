/** Partial completion of a request (block/blk-core.c): ending bytes of a chain of bios. A bio's
    vectors are those from bi_idx on. */
module Completion {
  const EIO := 5

  /** A segment: its place in its page and its length in bytes. */
  datatype Vec = Vec(page: nat, offset: nat, len: nat)

  datatype Bio = Bio(id: nat, vecs: seq<Vec>, size: nat, sector: nat, uptodate: bool)

  /** What a bio's owner is told: which bio ended, and with which error. */
  datatype Ended = Ended(id: nat, error: int)

  function Length(vecs: seq<Vec>): nat { if vecs == [] then 0 else vecs[0].len + Length(vecs[1..]) }

  /** An ordinary bio: something left to do, in whole vectors. */
  ghost predicate Ordinary(b: Bio) {
    b.size == Length(b.vecs) && b.size > 0 && forall i :: 0 <= i < |b.vecs| ==> b.vecs[i].len > 0
  }

  ghost predicate Chain(bios: seq<Bio>) { forall i :: 0 <= i < |bios| ==> Ordinary(bios[i]) }

  function Total(bios: seq<Bio>): nat { if bios == [] then 0 else bios[0].size + Total(bios[1..]) }

  // ---------- what ending n bytes means ----------

  /** The vectors left after n bytes. */
  function Drop(vecs: seq<Vec>, n: nat): seq<Vec> {
    if vecs == [] then []
    else if vecs[0].len <= n then Drop(vecs[1..], n - vecs[0].len)
    else [Vec(vecs[0].page, vecs[0].offset + n, vecs[0].len - n)] + vecs[1..]
  }

  function Advance(b: Bio, n: nat, error: int): Bio
    requires n <= b.size
  {
    Bio(b.id, Drop(b.vecs, n), b.size - n, b.sector + n / 512, b.uptodate && error == 0)
  }

  /** What req_bio_endio reports for a bio of which everything has been ended. */
  function Verdict(b: Bio, error: int): Ended {
    Ended(b.id, if error != 0 then error else if b.uptodate then 0 else -EIO)
  }

  /** The bios left, and what was reported, in order, when n bytes end with `error`. */
  function End(bios: seq<Bio>, n: nat, error: int): (seq<Bio>, seq<Ended>) {
    if bios == [] || n == 0 then (bios, [])
    else if n < bios[0].size then ([Advance(bios[0], n, error)] + bios[1..], [])
    else
      var (rest, ended) := End(bios[1..], n - bios[0].size, error);
      (rest, [Verdict(bios[0], error)] + ended)
  }

  // ---------- laws ----------

  lemma {:induction false} DropLength(vecs: seq<Vec>, n: nat)
    requires n <= Length(vecs) && forall i :: 0 <= i < |vecs| ==> vecs[i].len > 0
    ensures Length(Drop(vecs, n)) == Length(vecs) - n
    ensures forall i :: 0 <= i < |Drop(vecs, n)| ==> Drop(vecs, n)[i].len > 0
  {
    if vecs != [] && vecs[0].len <= n { DropLength(vecs[1..], n - vecs[0].len); }
  }

  lemma {:induction false} DropDrop(vecs: seq<Vec>, n: nat, m: nat)
    ensures Drop(Drop(vecs, n), m) == Drop(vecs, n + m)
  {
    if vecs != [] {
      if vecs[0].len <= n {
        DropDrop(vecs[1..], n - vecs[0].len, m);
      } else {
        assert Drop(vecs, n)[1..] == vecs[1..];
      }
    }
  }

  lemma Sectors(n: nat, m: nat)
    requires n % 512 == 0
    ensures n / 512 + m / 512 == (n + m) / 512
  {
  }

  lemma AdvanceAdvance(b: Bio, n: nat, m: nat, error: int)
    requires n + m <= b.size && n % 512 == 0
    ensures Advance(Advance(b, n, error), m, error) == Advance(b, n + m, error)
  {
    DropDrop(b.vecs, n, m);
    Sectors(n, m);
  }

  lemma AdvanceOrdinary(b: Bio, n: nat, error: int)
    requires Ordinary(b) && n < b.size
    ensures Ordinary(Advance(b, n, error))
  {
    DropLength(b.vecs, n);
  }

  /** Ending n bytes and then m leaves the same chain, and ends the same bios with the same
      verdicts, once each and in order, as ending n + m. */
  lemma {:induction false} EndComposes(bios: seq<Bio>, n: nat, m: nat, error: int)
    requires Chain(bios) && n % 512 == 0 && forall i :: 0 <= i < |bios| ==> bios[i].size % 512 == 0
    ensures var (left, first) := End(bios, n, error); var (last, second) := End(left, m, error);
            End(bios, n + m, error) == (last, first + second)
    decreases |bios|
  {
    if bios == [] {
    } else if n == 0 {
      assert [] + End(bios, m, error).1 == End(bios, m, error).1;
    } else if n >= bios[0].size {
      Aligned(n, bios[0].size);
      EndComposes(bios[1..], n - bios[0].size, m, error);
      var (left, first) := End(bios[1..], n - bios[0].size, error);
      var second := End(left, m, error).1;
      assert [Verdict(bios[0], error)] + first + second == [Verdict(bios[0], error)] + (first + second);
    } else {
      EndInside(bios, n, m, error);
    }
  }

  lemma Aligned(n: nat, k: nat)
    requires n % 512 == 0 && k % 512 == 0 && k <= n
    ensures (n - k) % 512 == 0
  {
  }

  /** The first part ends inside the first bio. */
  lemma EndInside(bios: seq<Bio>, n: nat, m: nat, error: int)
    requires Chain(bios) && bios != [] && 0 < n < bios[0].size && n % 512 == 0
    ensures var (left, first) := End(bios, n, error); var (last, second) := End(left, m, error);
            End(bios, n + m, error) == (last, first + second)
  {
    hide Drop;
    var b := bios[0];
    var left := [Advance(b, n, error)] + bios[1..];
    assert left[1..] == bios[1..] && left[0] == Advance(b, n, error);
    if m > 0 && m < b.size - n {
      AdvanceAdvance(b, n, m, error);
    }
    assert forall s: seq<Ended> :: [] + s == s;
  }

  /** What is left is what was there less what ended. */
  lemma {:induction false} EndConserves(bios: seq<Bio>, n: nat, error: int)
    requires Chain(bios)
    ensures Chain(End(bios, n, error).0)
    ensures Total(End(bios, n, error).0) == if n <= Total(bios) then Total(bios) - n else 0
    ensures End(bios, n, error).0 == [] <==> n >= Total(bios)
    decreases |bios|
  {
    if bios != [] {
      assert Ordinary(bios[0]) && bios == [bios[0]] + bios[1..];
      if n >= bios[0].size {
        EndConserves(bios[1..], n - bios[0].size, error);
      } else if n > 0 {
        AdvanceOrdinary(bios[0], n, error);
        var left := End(bios, n, error).0;
        assert left[1..] == bios[1..];
      }
    }
  }

  // ---------- which bytes are left ----------

  /** A byte in memory, and the byte on the disk it belongs to. */
  datatype Place = Place(page: nat, offset: nat, disk: nat)

  /** The bytes the vectors cover, in order; the first one belongs to disk byte `disk`. */
  function Places(vecs: seq<Vec>, disk: nat): seq<Place> {
    if vecs == [] then []
    else seq(vecs[0].len, i requires 0 <= i => Place(vecs[0].page, vecs[0].offset + i, disk + i)) + Places(vecs[1..], disk + vecs[0].len)
  }

  function Work(bios: seq<Bio>): seq<Place> {
    if bios == [] then [] else Places(bios[0].vecs, 512 * bios[0].sector) + Work(bios[1..])
  }

  lemma {:induction false} PlacesLength(vecs: seq<Vec>, disk: nat)
    ensures |Places(vecs, disk)| == Length(vecs)
  {
    if vecs != [] { PlacesLength(vecs[1..], disk + vecs[0].len); }
  }

  /** After n bytes the vectors cover exactly the bytes behind the first n. */
  lemma {:induction false} DropIsSuffix(vecs: seq<Vec>, disk: nat, n: nat)
    requires n <= Length(vecs)
    ensures |Places(vecs, disk)| == Length(vecs) && Places(Drop(vecs, n), disk + n) == Places(vecs, disk)[n..]
  {
    PlacesLength(vecs, disk);
    if vecs != [] {
      var v, t := vecs[0], vecs[1..];
      if v.len <= n {
        DropIsSuffix(t, disk + v.len, n - v.len);
      } else {
        var rest := Vec(v.page, v.offset + n, v.len - n);
        var left := [rest] + t;
        assert left[0] == rest && left[1..] == t;
      }
    }
  }

  /** Ending n bytes leaves exactly the work behind the first n bytes: each byte in memory with its byte
      on the disk. */
  lemma {:induction false} EndLeavesTheRest(bios: seq<Bio>, n: nat, error: int)
    requires Chain(bios) && n <= Total(bios) && n % 512 == 0 && forall i :: 0 <= i < |bios| ==> bios[i].size % 512 == 0
    ensures |Work(bios)| == Total(bios) && Work(End(bios, n, error).0) == Work(bios)[n..]
    decreases |bios|
  {
    if bios != [] {
      var b, t := bios[0], bios[1..];
      assert Ordinary(b);
      DropIsSuffix(b.vecs, 512 * b.sector, if n < b.size then n else 0);
      if n >= b.size {
        Aligned(n, b.size);
        EndLeavesTheRest(t, n - b.size, error);
      } else {
        EndLeavesTheRest(t, 0, error);
        if n > 0 {
          var left := [Advance(b, n, error)] + t;
          assert left[0] == Advance(b, n, error) && left[1..] == t;
          assert 512 * (b.sector + n / 512) == 512 * b.sector + n;
        }
      }
    }
  }

  /** The bios that end are those at the front, in order. */
  lemma {:induction false} EndInOrder(bios: seq<Bio>, n: nat, error: int)
    ensures var (left, ended) := End(bios, n, error);
            |left| + |ended| == |bios| && forall i :: 0 <= i < |ended| ==> ended[i] == Verdict(bios[i], error)
    decreases |bios|
  {
    if bios != [] && n >= bios[0].size { EndInOrder(bios[1..], n - bios[0].size, error); }
  }

  // ---------- errors over a whole life ----------

  /** Parts of a chain ended one after the other, each with its own error. */
  function EndAll(bios: seq<Bio>, parts: seq<(nat, int)>): (seq<Bio>, seq<Ended>)
    decreases |parts|
  {
    if parts == [] then (bios, [])
    else
      var (left, first) := End(bios, parts[0].0, parts[0].1);
      var (last, rest) := EndAll(left, parts[1..]);
      (last, first + rest)
  }

  ghost predicate Distinct(bios: seq<Bio>) { forall i, j :: 0 <= i < j < |bios| ==> bios[i].id != bios[j].id }

  function Sum(parts: seq<(nat, int)>): nat { if parts == [] then 0 else parts[0].0 + Sum(parts[1..]) }

  /** No part that reaches into the bytes from lo to hi has an error; the first part begins at byte `at`. */
  predicate Clean(parts: seq<(nat, int)>, at: nat, lo: nat, hi: nat)
    decreases |parts|
  {
    parts == [] ||
    (&& (parts[0].0 > 0 && at < hi && at + parts[0].0 > lo ==> parts[0].1 == 0)
     && Clean(parts[1..], at + parts[0].0, lo, hi))
  }

  lemma {:induction false} CleanBeyond(parts: seq<(nat, int)>, at: nat, lo: nat, hi: nat)
    requires hi <= at
    ensures Clean(parts, at, lo, hi)
    decreases |parts|
  {
    if parts != [] { CleanBeyond(parts[1..], at + parts[0].0, lo, hi); }
  }

  /** The same from a later origin. */
  lemma {:induction false} CleanShifts(parts: seq<(nat, int)>, at: nat, lo: nat, hi: nat, n: nat)
    requires n <= at && n <= hi
    ensures Clean(parts, at, lo, hi) <==> Clean(parts, at - n, if lo >= n then lo - n else 0, hi - n)
    decreases |parts|
  {
    if parts != [] { CleanShifts(parts[1..], at + parts[0].0, lo, hi, n); }
  }

  lemma EndAllStep(bios: seq<Bio>, parts: seq<(nat, int)>)
    requires parts != []
    ensures var (left, first) := End(bios, parts[0].0, parts[0].1);
            EndAll(bios, parts).1 == first + EndAll(left, parts[1..]).1
  {
  }

  lemma EndAllNothing(bios: seq<Bio>)
    ensures EndAll(bios, []).1 == []
  {
  }

  lemma EndDistinct(bios: seq<Bio>, n: nat, error: int)
    requires Distinct(bios)
    ensures Distinct(End(bios, n, error).0)
  {
  }

  /** What is left is the tail of the chain. */
  lemma {:induction false} EndKeepsTail(bios: seq<Bio>, n: nat, error: int)
    ensures var left := End(bios, n, error).0; var k := |bios| - |left|;
            k >= 0 && forall i :: 0 <= i < |left| ==> left[i].id == bios[k + i].id
    decreases |bios|
  {
    if bios != [] && n >= bios[0].size { EndKeepsTail(bios[1..], n - bios[0].size, error); }
  }

  lemma {:induction false} GoneForGood(bios: seq<Bio>, parts: seq<(nat, int)>, id: nat)
    requires forall i :: 0 <= i < |bios| ==> bios[i].id != id
    ensures Ended(id, 0) !in EndAll(bios, parts).1
    decreases |parts|
  {
    if parts != [] {
      hide EndAll, End;
      EndAllStep(bios, parts);
      EndInOrder(bios, parts[0].0, parts[0].1);
      EndKeepsTail(bios, parts[0].0, parts[0].1);
      GoneForGood(End(bios, parts[0].0, parts[0].1).0, parts[1..], id);
    } else {
      EndAllNothing(bios);
    }
  }

  lemma PrefixTotal(bios: seq<Bio>, k: nat)
    requires 0 < k <= |bios|
    ensures Total(bios[..k]) == bios[0].size + Total(bios[1..][..k - 1])
  {
    assert bios[..k][1..] == bios[1..][..k - 1];
  }

  /** What one part does to bio i: it ends exactly if the part reaches its last byte; else it is still
      there, at a place n bytes nearer, and its flag goes down exactly with an error in a part that
      reaches it. */
  ghost predicate WentTo(bios: seq<Bio>, n: nat, error: int, i: nat)
    requires i < |bios|
  {
    var (left, first) := End(bios, n, error);
    var j, lo, hi := |first|, Total(bios[..i]), Total(bios[..i + 1]);
    && |left| + j == |bios| && (i < j <==> n >= hi) && lo < hi
    && (i >= j ==>
          && left[i - j].id == bios[i].id && (left[i - j].uptodate <==> bios[i].uptodate && (lo < n ==> error == 0))
          && Total(left[..i - j + 1]) == hi - n && Total(left[..i - j]) == if lo >= n then lo - n else 0)
  }

  lemma {:induction false} EndWentTo(bios: seq<Bio>, n: nat, error: int, i: nat)
    requires Chain(bios) && i < |bios|
    ensures WentTo(bios, n, error, i)
    decreases |bios|
  {
    hide WentTo, End, Total;
    assert Ordinary(bios[0]);
    if n < bios[0].size {
      EndWentInside(bios, n, error, i);
    } else if i == 0 {
      FirstEnds(bios, n, error);
    } else {
      EndWentTo(bios[1..], n - bios[0].size, error, i - 1);
      WentOn(bios, n, error, i);
    }
  }

  lemma FirstEnds(bios: seq<Bio>, n: nat, error: int)
    requires bios != [] && 0 < bios[0].size <= n
    ensures WentTo(bios, n, error, 0)
  {
    EndWhole(bios, n, error);
    EndInOrder(bios[1..], n - bios[0].size, error);
    hide End;
    PrefixTotal(bios, 1);
  }

  lemma WentOn(bios: seq<Bio>, n: nat, error: int, i: nat)
    requires 0 < i < |bios| && 0 < bios[0].size <= n && WentTo(bios[1..], n - bios[0].size, error, i - 1)
    ensures WentTo(bios, n, error, i)
  {
    hide End, Total, Verdict;
    EndWhole(bios, n, error);
    PrefixTotal(bios, i);
    PrefixTotal(bios, i + 1);
    assert bios[1..][i - 1] == bios[i];
  }

  lemma EndWhole(bios: seq<Bio>, n: nat, error: int)
    requires bios != [] && n > 0 && n >= bios[0].size
    ensures var (rest, ended) := End(bios[1..], n - bios[0].size, error);
            End(bios, n, error) == (rest, [Verdict(bios[0], error)] + ended)
  {
  }

  lemma EndWentInside(bios: seq<Bio>, n: nat, error: int, i: nat)
    requires Chain(bios) && i < |bios| && n < bios[0].size
    ensures WentTo(bios, n, error, i)
  {
    hide Drop, Length;
    PrefixGrows(bios, i);
    PrefixTotal(bios, i + 1);
    if n > 0 {
      var left := End(bios, n, error).0;
      assert left[0] == Advance(bios[0], n, error) && left[1..] == bios[1..];
      PrefixTotal(left, i + 1);
      if i > 0 {
        PrefixTotal(bios, i);
        PrefixTotal(left, i);
      }
    }
  }

  lemma {:induction false} PrefixGrows(bios: seq<Bio>, i: nat)
    requires Chain(bios) && i < |bios|
    ensures Total(bios[..i]) < Total(bios[..i + 1])
    ensures i > 0 ==> bios[0].size <= Total(bios[..i])
    decreases i
  {
    assert Ordinary(bios[i]);
    PrefixTotal(bios, i + 1);
    if i > 0 {
      PrefixTotal(bios, i);
      PrefixGrows(bios[1..], i - 1);
    }
  }

  lemma EndedNow(bios: seq<Bio>, n: nat, error: int, i: nat)
    requires Distinct(bios) && i < |bios|
    ensures var (left, first) := End(bios, n, error);
            && (Ended(bios[i].id, 0) in first <==> i < |first| && bios[i].uptodate && error == 0)
            && (i < |first| ==> forall k :: 0 <= k < |left| ==> left[k].id != bios[i].id)
  {
    hide End;
    var (left, first) := End(bios, n, error);
    EndInOrder(bios, n, error);
    EndKeepsTail(bios, n, error);
    forall k | 0 <= k < |first| && k != i ensures first[k].id != bios[i].id { assert bios[k].id != bios[i].id; }
    if i < |first| { assert first[i] == Verdict(bios[i], error); }
  }

  /** Over a whole life, however it is cut into parts: a bio reports success exactly if the parts reach
      its last byte, its flag was up, and every part that reaches into it ended without an error. */
  lemma {:induction false} SucceedsExactly(bios: seq<Bio>, parts: seq<(nat, int)>, i: nat)
    requires Chain(bios) && Distinct(bios) && i < |bios|
    ensures var lo, hi := Total(bios[..i]), Total(bios[..i + 1]);
            Ended(bios[i].id, 0) in EndAll(bios, parts).1 <==> Sum(parts) >= hi && bios[i].uptodate && Clean(parts, 0, lo, hi)
    decreases |parts|
  {
    hide EndAll, End, Distinct, Chain, Total, Ordinary;
    var lo, hi := Total(bios[..i]), Total(bios[..i + 1]);
    if parts == [] {
      EndAllNothing(bios);
      EndWentTo(bios, 0, 0, i);
    } else {
      var (n, error) := parts[0];
      var (left, first) := End(bios, n, error);
      EndAllStep(bios, parts);
      EndWentTo(bios, n, error, i);
      EndedNow(bios, n, error, i);
      if i < |first| {
        GoneForGood(left, parts[1..], bios[i].id);
        CleanBeyond(parts[1..], n, lo, hi);
      } else {
        EndConserves(bios, n, error);
        EndDistinct(bios, n, error);
        SucceedsExactly(left, parts[1..], i - |first|);
        CleanShifts(parts[1..], n, lo, hi, n);
      }
    }
  }

  // ---------- __end_that_request_first, in place ----------

  lemma {:induction false} DropAt(vecs: seq<Vec>, k: nat, r: nat)
    requires k < |vecs| && r < vecs[k].len
    ensures Drop(vecs, Length(vecs[..k]) + r) == [Vec(vecs[k].page, vecs[k].offset + r, vecs[k].len - r)] + vecs[k + 1..]
  {
    if k > 0 {
      assert vecs[..k][0] == vecs[0] && vecs[..k][1..] == vecs[1..][..k - 1] && vecs[1..][k..] == vecs[k + 1..];
      DropAt(vecs[1..], k - 1, r);
    }
  }

  lemma {:induction false} LengthOneMore(vecs: seq<Vec>, k: nat)
    requires k < |vecs|
    ensures Length(vecs[..k + 1]) == Length(vecs[..k]) + vecs[k].len
    ensures Length(vecs[..k + 1]) <= Length(vecs)
  {
    if k == 0 {
      assert vecs[..1] == [vecs[0]] && vecs[..1][1..] == [];
    } else {
      assert vecs[..k + 1][1..] == vecs[1..][..k] && vecs[..k][1..] == vecs[1..][..k - 1];
      LengthOneMore(vecs[1..], k - 1);
    }
  }

  lemma {:induction false} LengthWhole(vecs: seq<Vec>)
    ensures Length(vecs[..|vecs|]) == Length(vecs)
  {
    assert vecs[..|vecs|] == vecs;
  }

  /** k whole vectors of the bio are passed, and there is more of it. */
  ghost predicate Passed(b: Bio, k: nat, bytes: nat, more: nat) {
    k <= |b.vecs| && bytes == Length(b.vecs[..k]) && (k > 0 ==> bytes + more < b.size)
  }

  class Request {
    /** The bio chain, and what the owners of ended bios were told. */
    var bio: seq<Bio>
    var told: seq<Ended>
    var sector: nat
    var nrSectors: nat
    var hardSector: nat
    var hardNrSectors: nat
    var currentNrSectors: nat

    /** An ordinary file-system request: the chain's bytes are the sectors left, from the hard sector on. */
    ghost predicate Valid()
      reads this
    {
      Chain(bio) && Total(bio) == 512 * hardNrSectors && sector == hardSector && nrSectors == hardNrSectors
    }

    /** req_bio_endio on the first bio, which stays at the head of the chain. */
    method ReqBioEndio(nbytes: nat, error: int)
      requires bio != [] && nbytes <= bio[0].size
      modifies `bio, `told
      ensures bio == [old(bio)[0].(size := old(bio)[0].size - nbytes, sector := old(bio)[0].sector + nbytes / 512,
                                   uptodate := old(bio)[0].uptodate && error == 0)] + old(bio)[1..]
      ensures told == if nbytes == old(bio)[0].size then old(told) + [Verdict(old(bio)[0], error)] else old(told)
    {
      var b, err := bio[0], error;
      if err != 0 { b := b.(uptodate := false); } else if !b.uptodate { err := -EIO; }
      b := b.(size := b.size - nbytes, sector := b.sector + nbytes / 512);
      bio := [b] + bio[1..];
      if b.size == 0 { told := told + [Ended(b.id, err)]; }
    }

    /** The loop: whole bios end; the first one that does not is passed vector by vector. */
    method EndWholeBios(error: int, bytes: nat) returns (nrBytes: nat, totalBytes: nat, bioNbytes: nat, nextIdx: nat)
      requires Chain(bio)
      modifies `bio, `told
      ensures Chain(bio)
      ensures End(old(bio), bytes, error).0 == (if bio == [] then [] else End(bio, bioNbytes, error).0)
      ensures told == old(told) + End(old(bio), bytes, error).1
      ensures bio != [] ==> nextIdx < |bio[0].vecs| && nrBytes < bio[0].vecs[nextIdx].len
                            && bioNbytes == Length(bio[0].vecs[..nextIdx]) + nrBytes && bioNbytes < bio[0].size
                            && totalBytes == bytes
    {
      hide Verdict, Advance;
      nrBytes, totalBytes, bioNbytes, nextIdx := bytes, 0, 0, 0;
      while bio != []
        invariant Chain(bio) && (bio != [] ==> Passed(bio[0], nextIdx, bioNbytes, nrBytes))
        invariant (bio == [] ==> nextIdx == 0 && bioNbytes == 0) && totalBytes + nrBytes == bytes
        invariant End(bio, nrBytes + bioNbytes, error).0 == End(old(bio), bytes, error).0
        invariant told + End(bio, nrBytes + bioNbytes, error).1 == old(told) + End(old(bio), bytes, error).1
        decreases |bio|, (if bio != [] then |bio[0].vecs| else 0) - nextIdx
      {
        assert Ordinary(bio[0]);
        LengthWhole(bio[0].vecs);
        if nrBytes >= bio[0].size {
          var nbytes := bio[0].size;
          EndHead(error, nrBytes);
          nextIdx, bioNbytes := 0, 0;
          totalBytes, nrBytes := totalBytes + nbytes, nrBytes - nbytes;
        } else {
          LengthOneMore(bio[0].vecs, nextIdx);
          var nbytes := bio[0].vecs[nextIdx].len;
          if nbytes > nrBytes {
            bioNbytes, totalBytes := bioNbytes + nrBytes, totalBytes + nrBytes;
            break;
          }
          nextIdx := nextIdx + 1;
          bioNbytes := bioNbytes + nbytes;
          totalBytes, nrBytes := totalBytes + nbytes, nrBytes - nbytes;
        }
        if bio != [] && nrBytes <= 0 {
          LengthWhole(bio[0].vecs);
          break;
        }
      }
    }

    /** The first bio ends as a whole and leaves the chain. */
    method EndHead(error: int, nrBytes: nat)
      requires Chain(bio) && bio != [] && nrBytes >= bio[0].size
      modifies `bio, `told
      ensures bio == old(bio)[1..] && Chain(bio)
      ensures End(bio, nrBytes - old(bio)[0].size, error).0 == End(old(bio), nrBytes, error).0
      ensures told + End(bio, nrBytes - old(bio)[0].size, error).1 == old(told) + End(old(bio), nrBytes, error).1
      ensures bio != [] ==> Passed(bio[0], 0, 0, nrBytes - old(bio)[0].size)
    {
      assert Ordinary(bio[0]);
      ghost var rest, v := End(bio[1..], nrBytes - bio[0].size, error).1, Verdict(bio[0], error);
      assert told + [v] + rest == told + ([v] + rest);
      ReqBioEndio(bio[0].size, error);
      bio := bio[1..];
    }

    /** The first bio is moved past what ended of it. */
    method AdvanceHead(nrBytes: nat, bioNbytes: nat, nextIdx: nat, error: int)
      requires Chain(bio) && bio != [] && nextIdx < |bio[0].vecs| && nrBytes < bio[0].vecs[nextIdx].len
      requires 0 < bioNbytes == Length(bio[0].vecs[..nextIdx]) + nrBytes && bioNbytes < bio[0].size
      modifies `bio, `told
      ensures bio == End(old(bio), bioNbytes, error).0 && told == old(told)
    {
      ghost var b := bio[0];
      DropAt(b.vecs, nextIdx, nrBytes);
      ReqBioEndio(bioNbytes, error);
      var vecs := bio[0].vecs[nextIdx..];
      vecs := [Vec(vecs[0].page, vecs[0].offset + nrBytes, vecs[0].len - nrBytes)] + vecs[1..];
      bio := [bio[0].(vecs := vecs)] + bio[1..];
    }

    /** blk_recalc_rq_sectors: submission pointers that have not run ahead follow the hard ones, and
        then the first segment is never longer than what is left. */
    method RecalcSectors(nsect: nat)
      requires Chain(bio) && bio != [] && nsect <= hardNrSectors && Total(bio) <= 512 * (hardNrSectors - nsect)
      modifies `sector, `nrSectors, `hardSector, `hardNrSectors, `currentNrSectors
      ensures hardSector == old(hardSector) + nsect && hardNrSectors == old(hardNrSectors) - nsect
      ensures old(nrSectors) >= hardNrSectors && old(sector) <= hardSector ==>
                sector == hardSector && nrSectors == hardNrSectors && currentNrSectors == bio[0].vecs[0].len / 512 <= nrSectors
      ensures !(old(nrSectors) >= hardNrSectors && old(sector) <= hardSector) ==>
                sector == old(sector) && currentNrSectors == old(currentNrSectors) <= nrSectors
                && (old(currentNrSectors) <= old(nrSectors) ==> nrSectors == old(nrSectors))
    {
      FirstFits(bio);
      hardSector, hardNrSectors := hardSector + nsect, hardNrSectors - nsect;
      if nrSectors >= hardNrSectors && sector <= hardSector {
        sector, nrSectors := hardSector, hardNrSectors;
        currentNrSectors := bio[0].vecs[0].len / 512;
      }
      if nrSectors < currentNrSectors { nrSectors := currentNrSectors; }
    }

    /** __end_that_request_first: 1 while something is left, 0 when the request is done.  The sectors left
        are those of the bytes left exactly if no sector was split. */
    method EndThatRequestFirst(error: int, bytes: nat) returns (more: int)
      requires Valid()
      modifies this
      ensures bio == End(old(bio), bytes, error).0 && told == old(told) + End(old(bio), bytes, error).1
      ensures more == if bytes >= old(Total(bio)) then 0 else 1
      ensures more == 0 ==> bio == []
      ensures more == 1 ==>
                && Chain(bio) && Total(bio) == old(Total(bio)) - bytes
                && hardNrSectors == old(hardNrSectors) - bytes / 512 && hardSector == old(hardSector) + bytes / 512
                && sector == hardSector && nrSectors == hardNrSectors
                && (Valid() <==> bytes % 512 == 0)
    {
      hide End, Chain, Length;
      ghost var chain := bio;
      EndConserves(bio, bytes, error);
      var nrBytes, totalBytes, bioNbytes, nextIdx := EndWholeBios(error, bytes);
      if bio == [] { return 0; }
      EndConserves(bio, bioNbytes, error);
      assert bytes == 512 * (bytes / 512) + bytes % 512;
      if bioNbytes != 0 {
        AdvanceHead(nrBytes, bioNbytes, nextIdx, error);
      } else {
        EndNothing(bio, error);
      }
      RecalcSectors(totalBytes / 512);
      more := 1;
    }
  }

  lemma FirstFits(bios: seq<Bio>)
    requires Chain(bios) && bios != []
    ensures bios[0].vecs != [] && bios[0].vecs[0].len <= Total(bios)
  {
  }

  lemma EndNothing(bios: seq<Bio>, error: int)
    ensures End(bios, 0, error) == (bios, [])
  {
  }
}
