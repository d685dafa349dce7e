/** How the moves of a request between scheduler, list and driver act on the places where
    requests are found.                                                                   */
module BarrierMoves {
  import opened BarrierModel
  import opened BarrierPhases

  // ---------- lists ----------

  /** Remove takes out exactly the one occurrence. */
  lemma {:induction false} RemoveSplits(s: seq<Request>, r: Request) returns (i: nat)
    requires r in s
    ensures i < |s| && s[i] == r && Remove(s, r) == s[..i] + s[i + 1..]
  {
    if s[0] == r {
      i := 0;
    } else {
      var j := RemoveSplits(s[1..], r);
      i := j + 1;
      assert s[..i] == [s[0]] + s[1..][..j];
    }
  }

  lemma RemovedMembers(s: seq<Request>, r: Request)
    requires r in s && Distinct(s)
    ensures forall x :: x in Remove(s, r) <==> x in s && x != r
    ensures ListKeys(Remove(s, r)) == ListKeys(s) - {KeyOf(r)}
    ensures Distinct(Remove(s, r))
  {
    var i := RemoveSplits(s, r);
    var t := s[..i] + s[i + 1..];
    forall x ensures x in t <==> x in s && x != r {
      if x in s && x != r {
        var j :| 0 <= j < |s| && s[j] == x;
        assert if j < i then t[j] == x else t[j - 1] == x;
      }
    }
    forall x | x in s && x != r ensures KeyOf(x) != KeyOf(r) {
      var j :| 0 <= j < |s| && s[j] == x;
      assert KeyOf(s[j]) != KeyOf(s[i]);
    }
  }

  lemma InsertedMembers(s: seq<Request>, p: nat, r: Request)
    requires p <= |s| && Distinct(s) && KeyOf(r) !in ListKeys(s)
    ensures forall x :: x in InsertAt(s, p, r) <==> x in s || x == r
    ensures ListKeys(InsertAt(s, p, r)) == ListKeys(s) + {KeyOf(r)}
    ensures Distinct(InsertAt(s, p, r))
  {
  }

  // ---------- moves keep keys, uniqueness and the count ----------

  lemma DequeueMoves(q: Queue, r: Request)
    requires Unique(q) && r in q.list
    ensures Unique(Dequeue(q, r)) && Keys(Dequeue(q, r)) == Keys(q)
    ensures forall x :: Held(Dequeue(q, r), x) <==> Held(q, x)
  {
    RemovedMembers(q.list, r);
    var q1 := Dequeue(q, r);
    assert q1.elv + q1.driver == q.elv + q.driver + {r};
    assert KeyOf(r) in ListKeys(q.list);
    forall x | x in q.elv + q.driver ensures KeyOf(x) != KeyOf(r) {
      assert KeyOf(x) in SetKeys(q.elv + q.driver);
    }
    assert SetKeys(q1.elv + q1.driver) == SetKeys(q.elv + q.driver) + {KeyOf(r)};
  }

  lemma DropMoves(q: Queue, r: Request, q1: Queue)
    requires Unique(q) && r in q.driver
    requires q1.elv == q.elv && q1.list == q.list && q1.driver == q.driver - {r}
    ensures Unique(q1) && Keys(q1) == Keys(q) - {KeyOf(r)}
    ensures forall x :: Held(q1, x) <==> Held(q, x) && x != r
  {
  }

  lemma DispatchMoves(q: Queue, r: Request, p: nat, q1: Queue)
    requires Unique(q) && r in q.elv && p <= |q.list|
    requires q1.elv == q.elv - {r} && q1.list == InsertAt(q.list, p, r) && q1.driver == q.driver
    ensures Unique(q1) && Keys(q1) == Keys(q)
    ensures forall x :: Held(q1, x) <==> Held(q, x)
  {
    assert KeyOf(r) in SetKeys(q.elv + q.driver);
    InsertedMembers(q.list, p, r);
    assert q1.elv + q1.driver == q.elv + q.driver - {r};
    assert SetKeys(q1.elv + q1.driver) == SetKeys(q.elv + q.driver) - {KeyOf(r)};
  }

  lemma RequeueMoves(q: Queue, r: Request, p: nat, q1: Queue)
    requires Unique(q) && r in q.driver && p <= |q.list|
    requires q1.elv == q.elv && q1.list == InsertAt(q.list, p, Requeued(r)) && q1.driver == q.driver - {r}
    ensures Unique(q1) && Keys(q1) == Keys(q)
    ensures forall x :: Held(q1, x) <==> (Held(q, x) && x != r) || x == Requeued(r)
  {
    var q0 := q.(driver := q.driver - {r});
    DropMoves(q, r, q0);
    assert KeyOf(Requeued(r)) == KeyOf(r) && KeyOf(r) in Keys(q) && KeyOf(r) !in Keys(q0);
    InsertedMembers(q.list, p, Requeued(r));
  }

  lemma SameKeys(s: seq<Request>, t: seq<Request>)
    requires |s| == |t| && forall i :: 0 <= i < |s| ==> KeyOf(s[i]) == KeyOf(t[i])
    ensures ListKeys(s) == ListKeys(t) && (Distinct(s) <==> Distinct(t))
  {
    forall i | 0 <= i < |s| ensures KeyOf(s[i]) in ListKeys(t) && KeyOf(t[i]) in ListKeys(s) {
      assert s[i] in s && t[i] in t;
    }
  }

  lemma MarkMoves(q: Queue)
    requires Unique(q) && q.list != []
    ensures Unique(MarkStarted(q)) && Keys(MarkStarted(q)) == Keys(q)
    ensures forall x :: Held(MarkStarted(q), x) ==> Held(q, x) || x == q.list[0].(started := true)
  {
    hide ListKeys, SetKeys, Distinct;
    SameKeys(q.list, MarkStarted(q).list);
  }

  lemma CountDequeue(q: Queue, r: Request)
    requires Counted(q) && r !in q.driver && r.started
    ensures Counted(Dequeue(q, r))
  {
    assert FsOf(q.driver + {r}) == if IsFs(r) then FsOf(q.driver) + {r} else FsOf(q.driver);
  }

  lemma CountDrop(q: Queue, r: Request)
    requires Counted(q) && r in q.driver && r.started
    ensures |FsOf(q.driver - {r})| == if Accounted(r) then q.inFlight - 1 else q.inFlight
  {
    assert FsOf(q.driver - {r}) == if IsFs(r) then FsOf(q.driver) - {r} else FsOf(q.driver);
  }
}
