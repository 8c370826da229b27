/** The queues by themselves: the callback queue and its `ClearByHandle`, the connection's destructor, and the choice of
    a connection for a query. How they behave while threads interleave is the subject of `Lifecycle`. */
module Queues {
  import opened Collections

  class CMySQLQuery {
    const handle: nat

    constructor (handle: nat)
      ensures this.handle == handle
    {
      this.handle := handle;
    }
  }

  /** The query objects that exist: a query may be deleted only while it is here. */
  class Heap {
    ghost var live: set<CMySQLQuery>

    constructor ()
      ensures live == {}
    {
      live := {};
    }

    method Delete(q: CMySQLQuery)
      requires q in live
      modifies this
      ensures live == old(live) - {q}
    {
      live := live - {q};
    }
  }

  ghost predicate Distinct(qs: seq<CMySQLQuery>) {
    forall i, j :: 0 <= i < j < |qs| ==> qs[i] != qs[j]
  }

  /** The queries of other handles, in their order. */
  function Others(qs: seq<CMySQLQuery>, handle: nat): seq<CMySQLQuery> {
    if qs == [] then []
    else
      var rest, q := qs[..|qs| - 1], qs[|qs| - 1];
      Others(rest, handle) + (if q.handle != handle then [q] else [])
  }

  function Own(qs: seq<CMySQLQuery>, handle: nat): set<CMySQLQuery> {
    set q | q in qs && q.handle == handle
  }

  lemma {:induction false} OthersAre(qs: seq<CMySQLQuery>, handle: nat)
    ensures forall k :: 0 <= k < |Others(qs, handle)| ==>
              Others(qs, handle)[k] in qs && Others(qs, handle)[k].handle != handle
    ensures |Others(qs, handle)| <= |qs|
  {
    if qs != [] {
      var rest := qs[..|qs| - 1];
      OthersAre(rest, handle);
      assert qs == rest + [qs[|qs| - 1]];
    }
  }

  lemma OthersSnoc(qs: seq<CMySQLQuery>, q: CMySQLQuery, handle: nat)
    ensures Others(qs + [q], handle) == Others(qs, handle) + (if q.handle != handle then [q] else [])
    ensures Own(qs + [q], handle) == Own(qs, handle) + (if q.handle == handle then {q} else {})
  {
    assert (qs + [q])[..|qs|] == qs;
  }

  /** The order of any two queries that stay is kept. */
  lemma {:induction false} OthersKeepOrder(qs: seq<CMySQLQuery>, handle: nat, i: nat, j: nat)
    requires i < j < |Others(qs, handle)|
    ensures exists a, b :: 0 <= a < b < |qs| && qs[a] == Others(qs, handle)[i] && qs[b] == Others(qs, handle)[j]
  {
    var rest, last := qs[..|qs| - 1], qs[|qs| - 1];
    if j < |Others(rest, handle)| {
      OthersKeepOrder(rest, handle, i, j);
      var a, b :| 0 <= a < b < |rest| && rest[a] == Others(rest, handle)[i] && rest[b] == Others(rest, handle)[j];
      assert qs[a] == Others(qs, handle)[i] && qs[b] == Others(qs, handle)[j];
    } else {
      OthersAre(rest, handle);
      var x := Others(rest, handle)[i];
      assert x in rest;
      var a :| 0 <= a < |rest| && rest[a] == x;
      assert qs[a] == Others(qs, handle)[i] && qs[|qs| - 1] == Others(qs, handle)[j];
    }
  }

  /** A queue of fixed size. */
  class Queue {
    var items: seq<CMySQLQuery>
    const capacity: nat

    ghost predicate Valid()
      reads this
    {
      |items| <= capacity
    }

    constructor (capacity: nat)
      ensures Valid() && items == [] && this.capacity == capacity
    {
      items := [];
      this.capacity := capacity;
    }

    method Push(q: CMySQLQuery) returns (ok: bool)
      requires Valid()
      modifies this
      ensures Valid() && ok == (|old(items)| < capacity)
      ensures items == if ok then old(items) + [q] else old(items)
    {
      ok := |items| < capacity;
      if ok {
        items := items + [q];
      }
    }

    method Pop() returns (q: CMySQLQuery?)
      requires Valid()
      modifies this
      ensures Valid() && (q == null <==> old(items) == [])
      ensures q == null ==> items == []
      ensures q != null ==> old(items) == [q] + items
    {
      if items == [] {
        return null;
      }
      q := items[0];
      items := items[1..];
    }
  }

  lemma NotBefore(all: seq<CMySQLQuery>, done: seq<CMySQLQuery>, q: CMySQLQuery, rest: seq<CMySQLQuery>)
    requires Distinct(all) && all == done + [q] + rest
    ensures q !in done && q in all
  {
    assert all[|done|] == q;
    forall i | 0 <= i < |done| ensures done[i] != q {
      assert all[i] == done[i];
    }
  }

  /** Exactly the queries of other handles stay. */
  lemma {:induction false} OthersExactly(qs: seq<CMySQLQuery>, handle: nat)
    ensures forall q :: q in Others(qs, handle) <==> q in qs && q.handle != handle
    ensures Distinct(qs) ==> Distinct(Others(qs, handle))
  {
    if qs != [] {
      var rest, q := qs[..|qs| - 1], qs[|qs| - 1];
      OthersExactly(rest, handle);
      assert qs == rest + [q];
      assert Distinct(qs) ==> q !in rest;
    }
  }

  /** `ClearByHandle` when no worker pushes meanwhile: exactly the handle's queries are deleted, and the others are back
      in the queue in their order. */
  method ClearByHandle(callbacks: Queue, heap: Heap, handle: nat)
    requires callbacks.Valid() && Distinct(callbacks.items) && Elements(callbacks.items) <= heap.live
    modifies callbacks, heap
    ensures callbacks.Valid()
    ensures callbacks.items == Others(old(callbacks.items), handle) && Distinct(callbacks.items)
    ensures forall q :: q in callbacks.items <==> q in old(callbacks.items) && q.handle != handle
    ensures forall q :: q in heap.live <==> q in old(heap.live) && !(q in old(callbacks.items) && q.handle == handle)
  {
    ghost var all := callbacks.items;
    OthersAre(all, handle);
    OthersExactly(all, handle);
    hide Others;
    var kept := PutAside(callbacks, heap, handle);
    PutBack(callbacks, kept);
  }

  method PutAside(callbacks: Queue, heap: Heap, handle: nat) returns (kept: seq<CMySQLQuery>)
    requires callbacks.Valid() && Distinct(callbacks.items) && Elements(callbacks.items) <= heap.live
    modifies callbacks, heap
    ensures callbacks.Valid() && callbacks.items == []
    ensures kept == Others(old(callbacks.items), handle)
    ensures heap.live == old(heap.live) - Own(old(callbacks.items), handle)
  {
    ghost var all := callbacks.items;
    ghost var done: seq<CMySQLQuery> := [];
    kept := [];
    hide Distinct, Others, Own, Elements;
    Nothing(handle);
    var query := callbacks.Pop();
    while query != null
      invariant callbacks.Valid()
      invariant query != null ==> all == done + [query] + callbacks.items
      invariant query == null ==> all == done && callbacks.items == []
      invariant kept == Others(done, handle) && heap.live == old(heap.live) - Own(done, handle)
      decreases |all| - |done|, query != null
    {
      OthersSnoc(done, query, handle);
      if query.handle != handle {
        kept := kept + [query];
      } else {
        NotBefore(all, done, query, callbacks.items);
        assert query in heap.live by {
          StillLive(all, done, query, handle, old(heap.live));
        }
        heap.Delete(query);
      }
      done := done + [query];
      assert all == done + callbacks.items;
      query := callbacks.Pop();
    }
  }

  lemma Nothing(handle: nat)
    ensures Others([], handle) == [] && Own([], handle) == {}
  {
  }

  lemma StillLive(all: seq<CMySQLQuery>, done: seq<CMySQLQuery>, q: CMySQLQuery, handle: nat, live: set<CMySQLQuery>)
    requires Elements(all) <= live && q in all && q !in done
    ensures q in live - Own(done, handle)
  {
    assert q in Elements(all);
  }

  method PutBack(callbacks: Queue, queries: seq<CMySQLQuery>)
    requires callbacks.Valid() && callbacks.items == [] && |queries| <= callbacks.capacity
    modifies callbacks
    ensures callbacks.Valid() && callbacks.items == queries
  {
    var kept := queries;
    while kept != []
      invariant callbacks.Valid() && queries == callbacks.items + kept
      decreases |kept|
    {
      var ok := callbacks.Push(kept[0]);
      kept := kept[1..];
    }
  }

  /** The end of a connection's destructor: what is left in the queue is deleted. */
  method Drain(queue: Queue, heap: Heap)
    requires queue.Valid() && Distinct(queue.items) && Elements(queue.items) <= heap.live
    modifies queue, heap
    ensures queue.Valid() && queue.items == []
    ensures heap.live == old(heap.live) - Elements(old(queue.items))
  {
    ghost var all := queue.items;
    ghost var done: seq<CMySQLQuery> := [];
    var query := queue.Pop();
    while query != null
      invariant queue.Valid() && Distinct(all) && Elements(all) <= old(heap.live)
      invariant query != null ==> all == done + [query] + queue.items
      invariant query == null ==> all == done && queue.items == []
      invariant heap.live == old(heap.live) - Elements(done)
      decreases |all| - |done|, query != null
    {
      NotBefore(all, done, query, queue.items);
      heap.Delete(query);
      done := done + [query];
      assert all == done + queue.items;
      query := queue.Pop();
    }
  }

  // ---------------------------------------------------------------------------
  // Choosing a connection

  const WORD: nat := 0x1_0000_0000

  /** How often each of n connections has been offered a query after k pooled submissions. */
  function Offers(n: nat, k: nat, i: nat): nat
    requires i < n
  {
    (k + n - 1 - i) / n
  }

  /** The submissions go round: the next one is offered to connection k % n, and to no other. */
  lemma OfferNext(n: nat, k: nat, i: nat)
    requires i < n
    ensures Offers(n, k + 1, i) == Offers(n, k, i) + (if i == k % n then 1 else 0)
  {
    DivStep(k + n - 1 - i, n);
    ModShift(k, n, i, k / n, k % n);
  }

  lemma DivStep(x: nat, n: nat)
    requires n > 0
    ensures (x + 1) / n == x / n + (if (x + 1) % n == 0 then 1 else 0)
  {
    var q, r := x / n, x % n;
    assert (q + 1) * n == q * n + n;
    if r + 1 == n {
      Quotient(x + 1, n, q + 1, 0);
    } else {
      Quotient(x + 1, n, q, r + 1);
    }
  }

  lemma ModShift(k: nat, n: nat, i: nat, q: nat, r: nat)
    requires i < n && q == k / n && r == k % n
    ensures (k + n - i) % n == 0 <==> r == i
  {
    assert (q + 1) * n == q * n + n && k == q * n + r;
    if r >= i {
      Quotient(k + n - i, n, q + 1, r - i);
    } else {
      Quotient(k + n - i, n, q, n + r - i);
    }
  }

  lemma Quotient(x: nat, n: nat, q: nat, r: nat)
    requires x == q * n + r && r < n
    ensures x / n == q && x % n == r
  {
    var d := x / n - q;
    assert x == (x / n) * n + x % n;
    assert d * n == r - x % n;
    Multiple(d, n);
  }

  lemma Multiple(d: int, n: int)
    requires n > 0
    ensures d >= 1 ==> d * n >= n
    ensures d <= -1 ==> d * n <= -n
  {
  }

  /** Whatever the number of submissions, no connection is two offers ahead of another. */
  lemma OffersBalanced(n: nat, k: nat, i: nat, j: nat)
    requires i < n && j < n
    ensures Offers(n, k, i) <= Offers(n, k, j) + 1
  {
    var x, y := k + n - 1 - i, k + n - 1 - j;
    assert x <= y + n - 1;
    assert x == (x / n) * n + x % n && y == (y / n) * n + y % n;
    var d := x / n - y / n - 1;
    assert d * n == (x / n) * n - (y / n) * n - n;
    Multiple(d, n);
  }

  /** A handle's connections. `submitted` counts the submissions to the pool, accepted or not. */
  class CMySQLHandle {
    const threadConnection: Queue
    const pool: seq<Queue>
    var currentPoolPos: nat
    var queryCounter: nat
    ghost var submitted: nat
    ghost var offered: seq<nat>

    ghost predicate Valid()
      reads this, threadConnection, pool
    {
      && threadConnection.Valid() && (forall i :: 0 <= i < |pool| ==> pool[i].Valid())
      && threadConnection !in pool && (forall i, j :: 0 <= i < j < |pool| ==> pool[i] != pool[j])
      && |offered| == |pool| && queryCounter < WORD
      && (pool == [] ==> currentPoolPos == 0)
      && (pool != [] ==> currentPoolPos == submitted % |pool|)
      && (forall i :: 0 <= i < |pool| ==> offered[i] == Offers(|pool|, submitted, i))
    }

    constructor (threadConnection: Queue, pool: seq<Queue>)
      requires threadConnection.Valid() && threadConnection !in pool
      requires forall i :: 0 <= i < |pool| ==> pool[i].Valid()
      requires forall i, j :: 0 <= i < j < |pool| ==> pool[i] != pool[j]
      ensures Valid() && queryCounter == 0 && submitted == 0
      ensures this.threadConnection == threadConnection && this.pool == pool
    {
      this.threadConnection, this.pool := threadConnection, pool;
      currentPoolPos, queryCounter, submitted := 0, 0, 0;
      offered := seq(|pool|, _ => 0);
      new;
      forall i | 0 <= i < |pool| ensures Offers(|pool|, 0, i) == 0 {
        Quotient(|pool| - 1 - i, |pool|, 0, |pool| - 1 - i);
      }
    }

    /** The connection a submission is offered to. */
    function Target(usePool: bool): Queue
      reads this
      requires usePool ==> currentPoolPos < |pool|
    {
      if usePool then pool[currentPoolPos] else threadConnection
    }

    /** The query goes to the end of one connection's queue, or nowhere; the pool is used in turn even when a connection
        refuses; and the counter counts the accepted ones. */
    method QueueQuery(query: CMySQLQuery, usePool: bool) returns (ok: bool)
      requires Valid()
      modifies this`currentPoolPos, this`queryCounter, this`submitted, this`offered, threadConnection, pool
      ensures Valid()
      ensures usePool && pool == [] ==> !ok && submitted == old(submitted)
      ensures usePool && pool != [] ==>
                submitted == old(submitted) + 1
                 && offered == old(offered)[old(currentPoolPos) := old(offered[currentPoolPos]) + 1]
      ensures !usePool ==> submitted == old(submitted) && offered == old(offered)
      ensures ok ==> !(usePool && pool == []) && old(Target(usePool)).items == old(Target(usePool).items) + [query]
      ensures !ok && !(usePool && pool == []) ==>
                |old(Target(usePool).items)| == old(Target(usePool)).capacity
                && old(Target(usePool)).items == old(Target(usePool).items)
      ensures threadConnection != old(Target(usePool && pool != [])) ==> unchanged(threadConnection)
      ensures forall i :: 0 <= i < |pool| && (!usePool || i != old(currentPoolPos)) ==> unchanged(pool[i])
      ensures queryCounter == if ok then (old(queryCounter) + 1) % WORD else old(queryCounter)
    {
      ok := false;
      if !usePool {
        ok := threadConnection.Push(query);
      } else if |pool| > 0 {
        var connection := pool[currentPoolPos];
        forall i | 0 <= i < |pool| ensures Offers(|pool|, submitted + 1, i)
                                           == Offers(|pool|, submitted, i) + (if i == currentPoolPos then 1 else 0) {
          OfferNext(|pool|, submitted, i);
        }
        NextPlace(submitted, |pool|);
        offered := offered[currentPoolPos := offered[currentPoolPos] + 1];
        submitted := submitted + 1;
        currentPoolPos := currentPoolPos + 1;
        if currentPoolPos == |pool| {
          currentPoolPos := 0;
        }
        ok := connection.Push(query);
      }
      if ok {
        queryCounter := (queryCounter + 1) % WORD;
      }
    }

    /** After any submissions, the offers made to two connections of the pool differ by at most one. */
    lemma PoolBalanced(i: nat, j: nat)
      requires Valid() && i < |pool| && j < |pool|
      ensures offered[i] <= offered[j] + 1
    {
      OffersBalanced(|pool|, submitted, i, j);
    }
  }

  lemma NextPlace(k: nat, n: nat)
    requires n > 0
    ensures (k + 1) % n == if k % n + 1 == n then 0 else k % n + 1
  {
    if k % n + 1 == n {
      Quotient(k + 1, n, k / n + 1, 0);
    } else {
      Quotient(k + 1, n, k / n, k % n + 1);
    }
  }
}
