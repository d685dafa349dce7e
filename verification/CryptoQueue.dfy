/** The bounded request queue of crypto/algapi.c, with its backlog pointer. */
module CryptoQueues {
  import opened Options

  const EINPROGRESS := 115
  const EBUSY := 16

  /** A request; the flag is CRYPTO_TFM_REQ_MAY_BACKLOG. */
  datatype Request = Request(id: nat, mayBacklog: bool)

  /** `backlog` is None when the pointer rests on the list head. */
  datatype Queue = Queue(list: seq<Request>, backlog: Option<Request>, qlen: nat, maxQlen: nat)

  function Init(maxQlen: nat): Queue { Queue([], None, 0, maxQlen) }

  ghost predicate Distinct(list: seq<Request>) {
    forall i, j :: 0 <= i < j < |list| ==> list[i].id != list[j].id
  }

  /** The first request beyond the limit, if there is one. */
  function FirstBeyond(list: seq<Request>, maxQlen: nat): Option<Request> {
    if |list| > maxQlen then Some(list[maxQlen]) else None
  }

  ghost predicate WellFormed(q: Queue) {
    Distinct(q.list) && q.qlen == |q.list| && q.backlog == FirstBeyond(q.list, q.maxQlen)
  }

  predicate Accepts(q: Queue, r: Request) { q.qlen < q.maxQlen || r.mayBacklog }

  /** Whether an accepted request goes to the backlog. */
  predicate Backlogs(q: Queue) { q.qlen >= q.maxQlen }

  function Enqueue(q: Queue, r: Request): Queue {
    if !Accepts(q, r) then q
    else q.(list := q.list + [r], qlen := q.qlen + 1,
            backlog := if Backlogs(q) && q.backlog == None then Some(r) else q.backlog)
  }

  function EnqueueResult(q: Queue): int { if Backlogs(q) then -EBUSY else -EINPROGRESS }

  /** The list successor of r; None when r is the last request. */
  function Next(list: seq<Request>, r: Request): Option<Request> {
    if |list| < 2 then None else if list[0] == r then Some(list[1]) else Next(list[1..], r)
  }

  function Dequeue(q: Queue): Queue
    requires q.qlen == |q.list|
  {
    if q.qlen == 0 then q
    else Queue(q.list[1..], if q.backlog == None then None else Next(q.list, q.backlog.value), q.qlen - 1, q.maxQlen)
  }

  lemma {:induction false} NextOf(list: seq<Request>, i: nat)
    requires i < |list| && Distinct(list)
    ensures Next(list, list[i]) == if i + 1 < |list| then Some(list[i + 1]) else None
  {
    if |list| >= 2 && i > 0 {
      NextOf(list[1..], i - 1);
    }
  }

  lemma EnqueueKeeps(q: Queue, r: Request)
    requires WellFormed(q) && forall x :: x in q.list ==> x.id != r.id
    ensures WellFormed(Enqueue(q, r))
  {
  }

  /** Moving the pointer one request along keeps it on the first request beyond the limit. */
  lemma DequeueKeeps(q: Queue)
    requires WellFormed(q)
    ensures WellFormed(Dequeue(q))
  {
    if |q.list| > q.maxQlen { NextOf(q.list, q.maxQlen); }
  }

  class CryptoQueue {
    var list: seq<Request>
    var backlog: Option<Request>
    var qlen: nat
    var maxQlen: nat

    ghost predicate Valid()
      reads this
    {
      WellFormed(Abs())
    }

    ghost function Abs(): Queue
      reads this
    {
      Queue(list, backlog, qlen, maxQlen)
    }

    constructor (limit: nat)
      ensures Valid() && Abs() == Init(limit)
    {
      list, backlog, qlen, maxQlen := [], None, 0, limit;
    }

    /** A request beyond the limit is refused, or accepted and made the backlog if it is the first. */
    method EnqueueRequest(request: Request) returns (err: int)
      requires Valid() && forall x :: x in list ==> x.id != request.id
      modifies this
      ensures Valid() && Abs() == Enqueue(old(Abs()), request) && err == EnqueueResult(old(Abs()))
      ensures list == old(list) || list == old(list) + [request]
      ensures err == -EINPROGRESS <==> old(|list|) < maxQlen
      ensures list == old(list) <==> old(|list|) >= maxQlen && !request.mayBacklog
    {
      EnqueueKeeps(Abs(), request);
      err := -EINPROGRESS;
      if qlen >= maxQlen {
        err := -EBUSY;
        if !request.mayBacklog { return; }
        if backlog == None { backlog := Some(request); }
      }
      qlen := qlen + 1;
      list := list + [request];
    }

    method FollowBacklog() returns (next: Option<Request>)
      requires Valid() && backlog != None
      ensures next == Next(list, backlog.value)
    {
      var i := 0;
      while list[i] != backlog.value
        invariant 0 <= i <= maxQlen < |list| && backlog == Some(list[maxQlen])
        decreases |list| - i
      {
        i := i + 1;
      }
      NextOf(list, i);
      next := if i + 1 < |list| then Some(list[i + 1]) else None;
    }

    method DequeueRequest() returns (request: Option<Request>)
      requires Valid()
      modifies this
      ensures Valid() && Abs() == Dequeue(old(Abs()))
      ensures request == if old(list) == [] then None else Some(old(list)[0])
      ensures old(list) != [] ==> list == old(list)[1..]
    {
      DequeueKeeps(Abs());
      if qlen == 0 { return None; }
      if backlog != None { backlog := FollowBacklog(); }
      qlen := qlen - 1;
      request := Some(list[0]);
      list := list[1..];
    }
  }
}
