/** Query objects over every run: each is in exactly one place until it is deleted, once; and no step touches an object
    that is not there. */
module LifecyclePlaces {
  import opened Wrappers
  import opened Lifecycle
  import opened LifecycleHandles
  import Tokens = LifecycleTokens

  // ---------------------------------------------------------------------------
  // Places

  function One(b: bool): nat {
    if b then 1 else 0
  }

  predicate Holds(w: Worker, q: QueryId) {
    (w.Executing? || w.Executed?) && w.query == q
  }

  function InConn(c: Conn, q: QueryId): nat {
    multiset(c.queue)[q] + One(Holds(c.worker, q))
  }

  /** On the connection it was made for. */
  function InLane(s: State, q: QueryId): nat {
    if q in s.log.lanes && HasConn(s, s.log.lanes[q].handle, s.log.lanes[q].conn)
    then InConn(ConnAt(s, s.log.lanes[q].handle, s.log.lanes[q].conn), q)
    else 0
  }

  function InMain(m: Main, q: QueryId): nat {
    match m
    case Created(x) => One(x == q)
    case Sweeping(_, kept) => multiset(kept)[q]
    case Restoring(kept) => multiset(kept)[q]
    case _ => 0
  }

  function InTick(t: Tick, q: QueryId): nat {
    match t
    case NoTick => 0
    case Taken(x) => One(x == q)
    case Running(x, _) => One(x == q)
  }

  /** In how many places a query is. */
  function Count(s: State, q: QueryId): nat {
    InMain(s.main, q) + InLane(s, q) + multiset(s.callbacks)[q] + InTick(s.tick, q) + One(q in s.lost)
  }

  // ---------------------------------------------------------------------------
  // The invariant

  predicate Labelled(s: State, q: QueryId, h: Addr, i: nat) {
    q in s.log.lanes && s.log.lanes[q] == Lane(h, i)
  }

  /** Only queries made for a connection are on it. */
  ghost predicate LanesKept(s: State) {
    && (forall q :: q in s.log.lanes ==> q < s.born)
    && (forall q :: q in s.queries ==> Labelled(s, q, s.queries[q].handle, s.queries[q].conn))
    && (forall h, i :: HasConn(s, h, i) ==> ConnLabelled(s, ConnAt(s, h, i), h, i))
  }

  ghost predicate ConnLabelled(s: State, c: Conn, h: Addr, i: nat) {
    && (forall k :: 0 <= k < |c.queue| ==> Labelled(s, c.queue[k], h, i))
    && (c.worker.Executing? || c.worker.Executed? ==> Labelled(s, c.worker.query, h, i))
  }

  /** Every query is in one place, and a deleted query in none. */
  ghost predicate OnePlace(s: State) {
    forall q :: Count(s, q) == One(q in s.queries)
  }

  /** The handle the query was made for still exists. */
  predicate Held(s: State, x: Query) {
    x.handle in s.handles && s.handles[x.handle].generation == x.generation
  }

  /** Where a query may be without its handle: in the public function that closed the handle, among those that
      `ClearByHandle` is about to delete, or lost. */
  predicate Homed(s: State, q: QueryId, x: Query) {
    || Held(s, x)
    || (s.tick.Running? && s.tick.query == q)
    || (s.main.Sweeping? && x.handle == s.main.handle && q in s.callbacks)
    || q in s.lost
  }

  ghost predicate AllHomed(s: State) {
    && (forall q :: q in s.queries ==> Homed(s, q, s.queries[q]))
    && (s.tick.Running? ==> s.tick.query in s.queries && s.tick.lifetime == s.queries[s.tick.query].generation)
  }

  ghost predicate PlaceInv(s: State) {
    !s.fault && LanesKept(s) && OnePlace(s) && AllHomed(s)
  }

  lemma Somewhere(s: State, q: QueryId)
    requires OnePlace(s)
    ensures Count(s, q) > 0 ==> q in s.queries && Count(s, q) == 1
  {
    assert Count(s, q) == One(q in s.queries);
  }

  // ---------------------------------------------------------------------------
  // Counting each step

  lemma SetConnCount(s: State, h: Addr, i: nat, c: Conn, q: QueryId)
    requires HasConn(s, h, i)
    ensures Count(SetConn(s, h, i, c), q)
            == Count(s, q) + (if Labelled(s, q, h, i) then InConn(c, q) - InConn(ConnAt(s, h, i), q) else 0)
  {
  }

  lemma HeadCount(qs: seq<QueryId>, q: QueryId)
    requires qs != []
    ensures multiset(qs)[q] == multiset(qs[1..])[q] + One(q == qs[0])
  {
    assert qs == [qs[0]] + qs[1..];
  }

  lemma LastCount(qs: seq<QueryId>, x: QueryId, q: QueryId)
    ensures multiset(qs + [x])[q] == multiset(qs)[q] + One(q == x)
  {
  }

  lemma TakeCount(s: State, h: Addr, i: nat, q: QueryId)
    requires HasConn(s, h, i) && ConnAt(s, h, i).queue != [] && ConnAt(s, h, i).worker.Idle?
    ensures Count(NextTake(s, h, i), q) == Count(s, q)
  {
    hide Count, SetConn;
    var c := ConnAt(s, h, i);
    HeadCount(c.queue, q);
    SetConnCount(s, h, i, c.(queue := c.queue[1..], worker := Executing(c.queue[0])), q);
  }

  // ---------------------------------------------------------------------------
  // Frames

  lemma Moved(s: State, s': State)
    requires OnePlace(s) && s'.queries.Keys == s.queries.Keys
    requires forall q :: Count(s', q) == Count(s, q)
    ensures OnePlace(s')
  {
    forall q ensures Count(s', q) == One(q in s'.queries) {
      assert Count(s, q) == One(q in s.queries) && (q in s'.queries.Keys <==> q in s.queries.Keys);
    }
  }

  lemma Deleted(s: State, s': State, x: QueryId)
    requires OnePlace(s) && x in s.queries && s'.queries == s.queries - {x}
    requires forall q :: Count(s', q) == Count(s, q) - One(q == x)
    ensures OnePlace(s')
  {
    forall q ensures Count(s', q) == One(q in s'.queries) {
      assert Count(s, q) == One(q in s.queries);
    }
  }

  /** No handle and no query loses what the invariant says of it. */
  ghost predicate SameHomes(s: State, s': State) {
    && s'.log.lanes == s.log.lanes && s'.born == s.born
    && (forall h :: h in s.handles ==> h in s'.handles && s'.handles[h].generation == s.handles[h].generation)
    && (forall q :: q in s'.queries ==> q in s.queries && SameLabel(s.queries[q], s'.queries[q]))
  }

  predicate SameLabel(x: Query, x': Query) {
    x'.handle == x.handle && x'.conn == x.conn && x'.generation == x.generation
  }

  /** A step of a worker, or another that leaves the main thread and the tick where they are. */
  lemma WorkerHomes(s: State, s': State)
    requires AllHomed(s) && SameHomes(s, s') && s'.main == s.main && s'.tick == s.tick && s'.lost == s.lost
    requires forall q :: q in s'.queries && q in s.callbacks ==> q in s'.callbacks
    requires s.tick.Running? ==> s.tick.query in s'.queries
    ensures AllHomed(s')
  {
    forall q | q in s'.queries ensures Homed(s', q, s'.queries[q]) {
      assert Homed(s, q, s.queries[q]);
    }
  }

  lemma SetConnLanes(s: State, h: Addr, i: nat, c: Conn)
    requires LanesKept(s) && HasConn(s, h, i) && ConnLabelled(s, c, h, i)
    ensures LanesKept(SetConn(s, h, i, c)) && SameHomes(s, SetConn(s, h, i, c))
  {
    var s' := SetConn(s, h, i, c);
    forall h': Addr, i': nat | HasConn(s', h', i') ensures ConnLabelled(s', ConnAt(s', h', i'), h', i') {
      assert HasConn(s, h', i');
      assert (h', i') == (h, i) || ConnLabelled(s, ConnAt(s, h', i'), h', i');
    }
  }

  lemma LabelledAt(s: State, h: Addr, i: nat)
    requires LanesKept(s) && HasConn(s, h, i)
    ensures ConnLabelled(s, ConnAt(s, h, i), h, i)
  {
  }

  // ---------------------------------------------------------------------------
  // The workers

  lemma TakeKeeps(s: State, h: Addr, i: nat)
    requires PlaceInv(s) && Enabled(s, Take(h, i))
    ensures PlaceInv(NextTake(s, h, i))
  {
    var s', c := NextTake(s, h, i), ConnAt(s, h, i);
    forall q ensures Count(s', q) == Count(s, q) {
      TakeCount(s, h, i, q);
    }
    LabelledAt(s, h, i);
    SetConnLanes(s, h, i, c.(queue := c.queue[1..], worker := Executing(c.queue[0])));
    hide LanesKept, Count, Homed, AllHomed, OnePlace, SameHomes;
    Moved(s, s');
    WorkerHomesSame(s, s');
  }

  lemma WorkerHomesSame(s: State, s': State)
    requires AllHomed(s) && SameHomes(s, s') && s'.main == s.main && s'.tick == s.tick && s'.lost == s.lost
    requires s'.callbacks == s.callbacks && s'.queries.Keys == s.queries.Keys
    ensures AllHomed(s')
  {
    assert s.tick.Running? ==> s.tick.query in s'.queries.Keys;
    WorkerHomes(s, s');
  }

  lemma BusyQuery(s: State, h: Addr, i: nat)
    requires LanesKept(s) && OnePlace(s) && HasConn(s, h, i)
    requires var w := ConnAt(s, h, i).worker; w.Executing? || w.Executed?
    ensures ConnAt(s, h, i).worker.query in s.queries && s.queries[ConnAt(s, h, i).worker.query].handle == h
    ensures Labelled(s, ConnAt(s, h, i).worker.query, h, i) && InLane(s, ConnAt(s, h, i).worker.query) > 0
  {
    LabelledAt(s, h, i);
    Somewhere(s, ConnAt(s, h, i).worker.query);
  }

  /** The handles' counters and the queries' callbacks do not matter here. */
  lemma Recount(s: State, s': State)
    requires PlaceInv(s) && SameHomes(s, s') && s'.queries.Keys == s.queries.Keys
    requires s' == s.(handles := s'.handles, queries := s'.queries, main := s'.main)
    requires forall q :: InMain(s'.main, q) == InMain(s.main, q)
    requires s.main.Sweeping? ==> s'.main == s.main
    requires forall h :: h in s'.handles ==> h in s.handles && s'.handles[h].conns == s.handles[h].conns
    ensures PlaceInv(s')
  {
    forall q ensures Count(s', q) == Count(s, q) {
    }
    hide Count, InMain, SameHomes;
    Moved(s, s');
    assert LanesKept(s') by {
      hide OnePlace, AllHomed;
      RecountLanes(s, s');
    }
    hide LanesKept, OnePlace;
    RecountHomes(s, s');
  }

  lemma RecountLanes(s: State, s': State)
    requires LanesKept(s) && SameHomes(s, s')
    requires forall h :: h in s'.handles ==> h in s.handles && s'.handles[h].conns == s.handles[h].conns
    ensures LanesKept(s')
  {
    forall h: Addr, i: nat | HasConn(s', h, i) ensures ConnLabelled(s', ConnAt(s', h, i), h, i) {
      LabelledAt(s, h, i);
    }
  }

  lemma RecountHomes(s: State, s': State)
    requires AllHomed(s) && SameHomes(s, s') && s'.queries.Keys == s.queries.Keys
    requires s' == s.(handles := s'.handles, queries := s'.queries, main := s'.main)
    requires s.main.Sweeping? ==> s'.main == s.main
    ensures AllHomed(s')
  {
    forall q | q in s'.queries ensures Homed(s', q, s'.queries[q]) {
      assert Homed(s, q, s.queries[q]);
    }
    assert s.tick.Running? ==> s.tick.query in s'.queries.Keys;
  }

  lemma ExecuteKeeps(s: State, h: Addr, i: nat, outcome: Outcome)
    requires PlaceInv(s) && Enabled(s, Execute(h, i, outcome))
    ensures PlaceInv(NextExecute(s, h, i, outcome))
  {
    hide LanesKept, OnePlace, AllHomed, Count, SetConn;
    BusyQuery(s, h, i);
    var q := ConnAt(s, h, i).worker.query;
    var x := s.queries[q];
    var s1 := s.(handles := s.handles[h := s.handles[h].(counter := (s.handles[h].counter + WORD - 1) % WORD)],
                 queries := s.queries[q := Finished(x, outcome)]);
    ExecuteCounts(s, s1, h, q);
    assert PlaceInv(s1) by {
      hide SameHomes;
      Recount(s, s1);
    }
    assert NextExecute(s, h, i, outcome) == SetConn(s1, h, i, ConnAt(s1, h, i).(worker := Executed(q)));
    SameWork(s1, h, i, ConnAt(s1, h, i).(worker := Executed(q)));
  }

  lemma ExecuteCounts(s: State, s1: State, h: Addr, q: QueryId)
    requires q in s.queries && h in s.handles && q in s1.queries && h in s1.handles
    requires s1 == s.(handles := s.handles[h := s1.handles[h]], queries := s.queries[q := s1.queries[q]])
    requires s1.handles[h].generation == s.handles[h].generation && SameLabel(s.queries[q], s1.queries[q])
    ensures SameHomes(s, s1) && s1.queries.Keys == s.queries.Keys
  {
  }

  /** A change of one connection that leaves its queries where they are. */
  lemma SameWork(s: State, h: Addr, i: nat, c: Conn)
    requires PlaceInv(s) && HasConn(s, h, i) && c.queue == ConnAt(s, h, i).queue
    requires forall q :: Holds(c.worker, q) == Holds(ConnAt(s, h, i).worker, q)
    ensures PlaceInv(SetConn(s, h, i, c))
  {
    var s', b := SetConn(s, h, i, c), ConnAt(s, h, i);
    forall q ensures Count(s', q) == Count(s, q) {
      assert Holds(c.worker, q) == Holds(b.worker, q);
      SetConnCount(s, h, i, c, q);
    }
    LabelledAt(s, h, i);
    assert ConnLabelled(s, c, h, i) by {
      assert c.worker.Executing? || c.worker.Executed? ==> Holds(c.worker, c.worker.query);
    }
    SetConnLanes(s, h, i, c);
    hide LanesKept, Count, Homed, AllHomed, OnePlace, SameHomes, ConnLabelled, Holds;
    Moved(s, s');
    WorkerHomesSame(s, s');
  }

  lemma DeliverKeeps(s: State, h: Addr, i: nat)
    requires PlaceInv(s) && Enabled(s, Deliver(h, i))
    ensures PlaceInv(NextDeliver(s, h, i))
  {
    BusyQuery(s, h, i);
    var s', b := NextDeliver(s, h, i), ConnAt(s, h, i);
    var c, x := b.(worker := Idle), b.worker.query;
    var s1 := SetConn(s, h, i, c);
    LabelledAt(s, h, i);
    SetConnLanes(s, h, i, c);
    forall q ensures Count(s1, q) == Count(s, q) - One(q == x) {
      SetConnCount(s, h, i, c, q);
    }
    hide LanesKept, Homed, SameHomes, OnePlace, ConnLabelled, SetConn, Count;
    if |s.callbacks| < CALLBACK_CAPACITY {
      hide AllHomed;
      CallbackPushed(s, s1, x);
    } else {
      ElsewhereHomed(s, s1);
      Dropped(s, s1, x);
    }
  }

  lemma ElsewhereHomed(s: State, s1: State)
    requires AllHomed(s) && SameHomes(s, s1) && s1 == s.(handles := s1.handles)
    ensures AllHomed(s1)
  {
    forall q | q in s1.queries ensures Homed(s1, q, s1.queries[q]) {
      assert Homed(s, q, s.queries[q]);
    }
  }

  /** x has left its place in s1 and joins the callback queue. */
  lemma CallbackPushed(s: State, s1: State, x: QueryId)
    requires PlaceInv(s) && SameHomes(s, s1) && LanesKept(s1) && s1 == s.(handles := s1.handles)
    requires forall q :: Count(s1, q) == Count(s, q) - One(q == x)
    ensures PlaceInv(s1.(callbacks := s.callbacks + [x]))
  {
    var s' := s1.(callbacks := s.callbacks + [x]);
    forall q ensures Count(s', q) == Count(s, q) {
      LastCount(s.callbacks, x, q);
      assert Count(s1, q) == Count(s, q) - One(q == x);
    }
    Moved(s, s');
    assert SameHomes(s, s');
    WorkerHomes(s, s');
    assert LanesKept(s') by {
      hide OnePlace, AllHomed;
      RecountLanes(s1, s');
    }
  }

  /** x has left its place in s1 and is deleted. */
  lemma Dropped(s: State, s1: State, x: QueryId)
    requires OnePlace(s) && s1.queries == s.queries && !s1.fault && LanesKept(s1)
    requires forall q :: Count(s1, q) == Count(s, q) - One(q == x)
    requires forall q :: q in s.queries && q != x ==> Homed(s1, q, s.queries[q])
    requires s1.tick.Running? ==> s1.tick.query in s.queries && s1.tick.lifetime == s.queries[s1.tick.query].generation
    ensures x in s.queries && PlaceInv(DeleteQuery(s1, x))
  {
    hide Count;
    assert Count(s1, x) == Count(s, x) - 1;
    Somewhere(s, x);
    NotInTick(s1, x);
    var s' := DeleteQuery(s1, x);
    forall q ensures Count(s', q) == Count(s, q) - One(q == x) {
      DeleteCount(s1, x, q);
    }
    Deleted(s, s', x);
    assert LanesKept(s') by {
      hide OnePlace;
      RecountLanes(s1, s');
    }
    hide LanesKept, OnePlace;
  }

  lemma NotInTick(s: State, x: QueryId)
    requires Count(s, x) == 0
    ensures s.tick.Running? ==> s.tick.query != x
  {
  }

  lemma DeleteCount(s: State, x: QueryId, q: QueryId)
    ensures Count(DeleteQuery(s, x), q) == Count(s, q)
  {
  }

  // ---------------------------------------------------------------------------
  // The natives

  lemma LivesKeeps(s: State, l: Lives)
    requires PlaceInv(s)
    ensures PlaceInv(s.(lives := l))
  {
    var s' := s.(lives := l);
    forall q ensures Count(s', q) == Count(s, q) {
    }
    hide Count;
    Moved(s, s');
    assert LanesKept(s') by {
      hide OnePlace;
      RecountLanes(s, s');
    }
    hide LanesKept, OnePlace;
    forall q | q in s'.queries ensures Homed(s', q, s'.queries[q]) {
      assert Homed(s, q, s.queries[q]);
    }
  }

  lemma ConnectKeeps(s: State, h: Addr, pool: nat)
    requires PlaceInv(s) && h !in s.handles
    ensures PlaceInv(NextConnect(s, h, pool))
  {
    var s' := NextConnect(s, h, pool);
    forall q ensures Count(s', q) == Count(s, q) {
    }
    hide Count;
    Moved(s, s');
    hide OnePlace;
    forall h': Addr, i: nat | HasConn(s', h', i) ensures ConnLabelled(s', ConnAt(s', h', i), h', i) {
      if h' != h {
        LabelledAt(s, h', i);
      }
    }
    forall q | q in s'.queries ensures Homed(s', q, s'.queries[q]) {
      assert Homed(s, q, s.queries[q]);
    }
  }

  /** A query that does not exist yet is nowhere. */
  lemma Unborn(s: State, q: QueryId)
    requires PlaceInv(s) && q >= s.born
    ensures q !in s.queries && q !in s.log.lanes && Count(s, q) == 0
  {
    assert Count(s, q) == One(q in s.queries);
  }

  lemma UnbornInConn(s: State, h: Addr, i: nat)
    requires LanesKept(s) && HasConn(s, h, i)
    ensures InConn(ConnAt(s, h, i), s.born) == 0
  {
    LabelledAt(s, h, i);
    assert s.born !in ConnAt(s, h, i).queue;
  }

  lemma IssueKeeps(s: State, h: Addr, conn: nat, amx: Addr, binding: Option<Binding>, callback: string)
    requires PlaceInv(s) && HandleInv(s) && s.main.Free? && h in s.lives.handles
    ensures PlaceInv(NextIssue(s, h, conn, amx, binding, callback))
  {
    var s', x := NextIssue(s, h, conn, amx, binding, callback), s.born;
    Unborn(s, x);
    assert OnePlace(s') by {
      IssueOnePlace(s, h, conn, amx, binding, callback);
    }
    hide Count, OnePlace;
    assert AllHomed(s') by {
      hide LanesKept;
      forall q | q in s'.queries ensures Homed(s', q, s'.queries[q]) {
        assert q == x || Homed(s, q, s.queries[q]);
      }
    }
    hide AllHomed;
    IssueLabelled(s, h, conn, amx, binding, callback);
  }

  lemma IssueLabelled(s: State, h: Addr, conn: nat, amx: Addr, binding: Option<Binding>, callback: string)
    requires LanesKept(s) && s.main.Free? && h in s.lives.handles && s.born !in s.queries
    ensures LanesKept(NextIssue(s, h, conn, amx, binding, callback))
  {
    var s' := NextIssue(s, h, conn, amx, binding, callback);
    forall h': Addr, i: nat | HasConn(s', h', i) ensures ConnLabelled(s', ConnAt(s', h', i), h', i) {
      LabelledAt(s, h', i);
    }
  }

  lemma IssueOnePlace(s: State, h: Addr, conn: nat, amx: Addr, binding: Option<Binding>, callback: string)
    requires PlaceInv(s) && s.main.Free? && h in s.lives.handles
    ensures OnePlace(NextIssue(s, h, conn, amx, binding, callback))
  {
    var s', x := NextIssue(s, h, conn, amx, binding, callback), s.born;
    Unborn(s, x);
    if HasConn(s, h, conn) {
      UnbornInConn(s, h, conn);
    }
    hide LanesKept, AllHomed;
    forall q ensures Count(s', q) == One(q in s'.queries) {
      assert Count(s, q) == One(q in s.queries);
      assert Count(s', q) == Count(s, q) + One(q == x);
    }
  }

  /** The main thread's query exists, and so does its handle. */
  lemma CreatedQuery(s: State, q: QueryId)
    requires PlaceInv(s) && s.main == Created(q)
    ensures q in s.queries && Held(s, s.queries[q])
    ensures Labelled(s, q, s.queries[q].handle, s.queries[q].conn)
  {
    Somewhere(s, q);
    assert Homed(s, q, s.queries[q]);
  }

  lemma PushKeeps(s: State, q: QueryId)
    requires PlaceInv(s) && s.main == Created(q)
    ensures PlaceInv(NextPush(s, q))
  {
    CreatedQuery(s, q);
    var h, i := s.queries[q].handle, s.queries[q].conn;
    if HasConn(s, h, i) && |ConnAt(s, h, i).queue| < QUEUE_CAPACITY {
      PushedKeeps(s, q, h, i);
    } else {
      RefusedKeeps(s, q);
    }
  }

  lemma RefusedKeeps(s: State, q: QueryId)
    requires PlaceInv(s) && s.main == Created(q)
    ensures PlaceInv(DeleteQuery(s, q).(main := Free))
  {
    var s1 := s.(main := Free);
    forall x ensures Count(s1, x) == Count(s, x) - One(x == q) {
    }
    forall x | x in s.queries && x != q ensures Homed(s1, x, s.queries[x]) {
      assert Homed(s, x, s.queries[x]);
    }
    assert LanesKept(s1) by {
      hide OnePlace, Count, AllHomed;
      RecountLanes(s, s1);
    }
    hide LanesKept, Count, OnePlace;
    Dropped(s, s1, q);
    assert DeleteQuery(s, q).(main := Free) == DeleteQuery(s1, q);
  }

  lemma PushedKeeps(s: State, q: QueryId, h: Addr, i: nat)
    requires PlaceInv(s) && s.main == Created(q) && q in s.queries && HasConn(s, h, i)
    requires s.queries[q].handle == h && s.queries[q].conn == i
    ensures var c := ConnAt(s, h, i);
            PlaceInv(SetConn(s, h, i, c.(queue := c.queue + [q])).(main := Pushed(h),
                     log := s.log.(submitted := s.log.submitted + [q])))
  {
    var b := ConnAt(s, h, i);
    var c := b.(queue := b.queue + [q]);
    var s1 := SetConn(s, h, i, c);
    var s' := s1.(main := Pushed(h), log := s.log.(submitted := s.log.submitted + [q]));
    LabelledAt(s, h, i);
    assert Labelled(s, q, h, i);
    SetConnLanes(s, h, i, c);
    forall x ensures Count(s', x) == Count(s, x) {
      PushedCount(s, q, h, i, x);
    }
    hide Count, ConnLabelled;
    Moved(s, s');
    assert LanesKept(s') by {
      hide OnePlace, AllHomed;
      RecountLanes(s1, s');
    }
    hide LanesKept, OnePlace;
    forall x | x in s'.queries ensures Homed(s', x, s'.queries[x]) {
      assert Homed(s, x, s.queries[x]);
    }
  }

  lemma PushedCount(s: State, q: QueryId, h: Addr, i: nat, x: QueryId)
    requires s.main == Created(q) && HasConn(s, h, i) && Labelled(s, q, h, i)
    ensures var c := ConnAt(s, h, i);
            Count(SetConn(s, h, i, c.(queue := c.queue + [q])).(main := Pushed(h),
                  log := s.log.(submitted := s.log.submitted + [q])), x) == Count(s, x)
  {
    var b := ConnAt(s, h, i);
    var c := b.(queue := b.queue + [q]);
    var s1 := SetConn(s, h, i, c);
    LastCount(b.queue, q, x);
    SetConnCount(s, h, i, c, x);
    hide Count, SetConn;
    MainCount(s1, s1.(main := Pushed(h), log := s.log.(submitted := s.log.submitted + [q])), x);
  }

  lemma MainCount(s: State, s': State, q: QueryId)
    requires s' == s.(main := s'.main, log := s.log.(submitted := s'.log.submitted))
    ensures Count(s', q) == Count(s, q) - InMain(s.main, q) + InMain(s'.main, q)
  {
  }

  lemma CountKeeps(s: State, h: Addr)
    requires PlaceInv(s) && HandleInv(s) && s.main == Pushed(h)
    ensures PlaceInv(NextCount(s, h))
  {
    hide LanesKept, OnePlace, AllHomed, Count;
    Recount(s, NextCount(s, h));
  }

  // ---------------------------------------------------------------------------
  // Closing

  lemma CloseKeeps(s: State, h: Addr)
    requires PlaceInv(s) && s.main.Free? && h in s.lives.handles
    ensures PlaceInv(NextClose(s, h))
  {
    var s1 := s.(lives := Retire(s.lives, h));
    LivesKeeps(s, s1.lives);
    var s2 := s1.(main := Stopping(h, 0));
    hide LanesKept, OnePlace, AllHomed, Count;
    assert PlaceInv(s2) by {
      assert SameHomes(s1, s2);
      Recount(s1, s2);
    }
    LogKeeps(s2, s2.log.(closed := true));
  }

  lemma LogKeeps(s: State, log: Log)
    requires PlaceInv(s) && log.lanes == s.log.lanes
    ensures PlaceInv(s.(log := log))
  {
    var s' := s.(log := log);
    forall q ensures Count(s', q) == Count(s, q) {
    }
    hide Count;
    Moved(s, s');
    assert LanesKept(s') by {
      hide OnePlace;
      RecountLanes(s, s');
    }
    hide LanesKept, OnePlace;
    forall q | q in s'.queries ensures Homed(s', q, s'.queries[q]) {
      assert Homed(s, q, s.queries[q]);
    }
  }

  lemma StopKeeps(s: State, h: Addr, i: nat)
    requires PlaceInv(s) && HandleInv(s) && s.main == Stopping(h, i)
    ensures PlaceInv(NextStop(s, h, i))
  {
    hide LanesKept, OnePlace, AllHomed, Count;
    if HasConn(s, h, i) {
      var c := ConnAt(s, h, i);
      assert forall q :: Holds(c.(running := false).worker, q) == Holds(c.worker, q);
      SameWork(s, h, i, c.(running := false));
      var s1 := SetConn(s, h, i, c.(running := false));
      var s2 := s1.(main := Joining(h, i));
      assert SameHomes(s1, s2);
      Recount(s1, s2);
    } else {
      FreedKeeps(s, h, i);
    }
  }

  /** The handle's connections are all gone, so that its queries are in the callback queue, in the tick or lost. */
  lemma FreedKeeps(s: State, h: Addr, i: nat)
    requires PlaceInv(s) && HandleInv(s) && s.main == Stopping(h, i) && !HasConn(s, h, i)
    ensures PlaceInv(NextStop(s, h, i))
  {
    var s' := s.(handles := s.handles - {h}, main := Sweeping(h, []));
    assert NextStop(s, h, i) == s' by {
      assert forall j :: 0 <= j < |s.handles[h].conns| ==> Gone(s.handles[h].conns[j]);
    }
    hide OnePlace;
    forall q ensures Count(s', q) == Count(s, q) {
      FreedCount(s, h, i, q);
    }
    forall q | q in s'.queries ensures Homed(s', q, s'.queries[q]) {
      assert Homed(s, q, s.queries[q]);
      assert Count(s, q) == 1 by {
        InOnePlace(s, q);
      }
    }
    hide Count;
    Moved(s, s');
    forall h': Addr, j: nat | HasConn(s', h', j) ensures ConnLabelled(s', ConnAt(s', h', j), h', j) {
      LabelledAt(s, h', j);
    }
  }

  lemma FreedCount(s: State, h: Addr, i: nat, q: QueryId)
    requires HandleInv(s) && s.main == Stopping(h, i) && !HasConn(s, h, i)
    ensures Count(NextStop(s, h, i), q) == Count(s, q)
  {
    assert forall j :: 0 <= j < |s.handles[h].conns| ==> Gone(s.handles[h].conns[j]);
  }

  lemma InOnePlace(s: State, q: QueryId)
    requires OnePlace(s) && q in s.queries
    ensures Count(s, q) == 1
  {
    assert Count(s, q) == One(q in s.queries);
  }

  lemma JoinKeeps(s: State)
    requires PlaceInv(s) && Enabled(s, Join)
    ensures PlaceInv(Next(s, Join))
  {
    hide LanesKept, OnePlace, AllHomed, Count;
    assert SameHomes(s, Next(s, Join));
    Recount(s, Next(s, Join));
  }

  lemma DrainKeeps(s: State, h: Addr, i: nat)
    requires PlaceInv(s) && HandleInv(s) && s.main == Draining(h, i)
    ensures PlaceInv(NextDrain(s, h, i))
  {
    hide LanesKept, OnePlace, AllHomed, Count;
    var c := ConnAt(s, h, i);
    if c.queue == [] {
      var s1 := s.(main := Stopping(h, i + 1));
      assert SameHomes(s, s1);
      Recount(s, s1);
    } else {
      DrainedKeeps(s, h, i);
    }
  }

  lemma DrainedKeeps(s: State, h: Addr, i: nat)
    requires PlaceInv(s) && HasConn(s, h, i) && ConnAt(s, h, i).queue != []
    ensures var c := ConnAt(s, h, i); PlaceInv(DeleteQuery(SetConn(s, h, i, c.(queue := c.queue[1..])), c.queue[0]))
  {
    var b := ConnAt(s, h, i);
    var c, x := b.(queue := b.queue[1..]), b.queue[0];
    var s1 := SetConn(s, h, i, c);
    LabelledAt(s, h, i);
    SetConnLanes(s, h, i, c);
    forall q ensures Count(s1, q) == Count(s, q) - One(q == x) {
      HeadCount(b.queue, q);
      SetConnCount(s, h, i, c, q);
    }
    hide LanesKept, Homed, OnePlace, ConnLabelled, Count;
    ElsewhereHomed(s, s1);
    hide SameHomes;
    Dropped(s, s1, x);
  }

  lemma SweepKeeps(s: State, h: Addr, kept: seq<QueryId>)
    requires PlaceInv(s) && s.main == Sweeping(h, kept)
    ensures PlaceInv(NextSweep(s, h, kept))
  {
    if s.callbacks == [] {
      SweptKeeps(s, h, kept);
    } else {
      var x := s.callbacks[0];
      Somewhere(s, x);
      assert Count(s, x) > 0 by {
        HeadCount(s.callbacks, x);
      }
      if s.queries[x].handle == h {
        SweepDrops(s, h, kept);
      } else {
        SweepPutsAside(s, h, kept);
      }
    }
  }

  lemma SweptKeeps(s: State, h: Addr, kept: seq<QueryId>)
    requires PlaceInv(s) && s.main == Sweeping(h, kept) && s.callbacks == []
    ensures PlaceInv(s.(main := Restoring(kept)))
  {
    var s' := s.(main := Restoring(kept));
    forall q ensures Count(s', q) == Count(s, q) {
    }
    hide Count;
    Moved(s, s');
    assert LanesKept(s') by {
      hide OnePlace;
      RecountLanes(s, s');
    }
    hide LanesKept, OnePlace;
    forall q | q in s'.queries ensures Homed(s', q, s'.queries[q]) {
      assert Homed(s, q, s.queries[q]);
    }
  }

  lemma SweepDrops(s: State, h: Addr, kept: seq<QueryId>)
    requires PlaceInv(s) && s.main == Sweeping(h, kept) && s.callbacks != []
    ensures PlaceInv(DeleteQuery(s.(callbacks := s.callbacks[1..]), s.callbacks[0]))
  {
    var s1, x := s.(callbacks := s.callbacks[1..]), s.callbacks[0];
    forall q ensures Count(s1, q) == Count(s, q) - One(q == x) {
      HeadCount(s.callbacks, q);
    }
    hide Count;
    assert s.callbacks == [x] + s1.callbacks;
    forall q | q in s.queries && q != x ensures Homed(s1, q, s.queries[q]) {
      assert Homed(s, q, s.queries[q]);
    }
    assert LanesKept(s1) by {
      hide OnePlace;
      RecountLanes(s, s1);
    }
    hide LanesKept, OnePlace;
    Dropped(s, s1, x);
  }

  lemma SweepPutsAside(s: State, h: Addr, kept: seq<QueryId>)
    requires PlaceInv(s) && s.main == Sweeping(h, kept) && s.callbacks != []
    requires s.callbacks[0] in s.queries && s.queries[s.callbacks[0]].handle != h
    ensures PlaceInv(s.(callbacks := s.callbacks[1..], main := Sweeping(h, kept + [s.callbacks[0]])))
  {
    hide Count;
    var x := s.callbacks[0];
    var s' := s.(callbacks := s.callbacks[1..], main := Sweeping(h, kept + [x]));
    forall q ensures Count(s', q) == Count(s, q) {
      AsideCount(s, h, kept, q);
    }
    assert s.callbacks == [x] + s'.callbacks;
    Moved(s, s');
    assert LanesKept(s') by {
      hide OnePlace;
      RecountLanes(s, s');
    }
    hide LanesKept, OnePlace;
    forall q | q in s'.queries ensures Homed(s', q, s'.queries[q]) {
      assert Homed(s, q, s.queries[q]);
    }
  }

  lemma AsideCount(s: State, h: Addr, kept: seq<QueryId>, q: QueryId)
    requires s.main == Sweeping(h, kept) && s.callbacks != []
    ensures Count(s.(callbacks := s.callbacks[1..], main := Sweeping(h, kept + [s.callbacks[0]])), q) == Count(s, q)
  {
    HeadCount(s.callbacks, q);
    LastCount(kept, s.callbacks[0], q);
  }

  lemma RestoreKeeps(s: State, kept: seq<QueryId>)
    requires PlaceInv(s) && s.main == Restoring(kept)
    ensures PlaceInv(NextRestore(s, kept))
  {
    var s' := NextRestore(s, kept);
    forall q ensures Count(s', q) == Count(s, q) {
      RestoreCount(s, kept, q);
    }
    hide Count, NextRestore;
    assert s' == s.(callbacks := s'.callbacks, main := s'.main, lost := s'.lost) && s.lost <= s'.lost
        && !s'.main.Sweeping? by {
      RestoreFrame(s, kept);
    }
    Moved(s, s');
    assert LanesKept(s') by {
      hide OnePlace;
      RecountLanes(s, s');
    }
    hide LanesKept, OnePlace;
    forall q | q in s'.queries ensures Homed(s', q, s'.queries[q]) {
      assert Homed(s, q, s.queries[q]);
    }
  }

  lemma RestoreFrame(s: State, kept: seq<QueryId>)
    requires s.main == Restoring(kept)
    ensures var s' := NextRestore(s, kept);
            s' == s.(callbacks := s'.callbacks, main := s'.main, lost := s'.lost) && s.lost <= s'.lost
            && !s'.main.Sweeping?
  {
  }

  lemma RestoreCount(s: State, kept: seq<QueryId>, q: QueryId)
    requires OnePlace(s) && s.main == Restoring(kept)
    ensures Count(NextRestore(s, kept), q) == Count(s, q)
  {
    if kept != [] {
      if |s.callbacks| < CALLBACK_CAPACITY {
        PutBackCount(s, kept, q);
      } else {
        assert kept[0] !in s.lost by {
          HeadCount(kept, kept[0]);
          Somewhere(s, kept[0]);
        }
        HeadCount(kept, q);
        hide OnePlace, Count;
        LostCount(s, kept, q);
      }
    }
  }

  lemma PutBackCount(s: State, kept: seq<QueryId>, q: QueryId)
    requires s.main == Restoring(kept) && kept != [] && |s.callbacks| < CALLBACK_CAPACITY
    ensures Count(NextRestore(s, kept), q) == Count(s, q)
  {
    HeadCount(kept, q);
    LastCount(s.callbacks, kept[0], q);
  }

  lemma LostCount(s: State, kept: seq<QueryId>, q: QueryId)
    requires s.main == Restoring(kept) && kept != [] && kept[0] !in s.lost
    requires multiset(kept)[q] == multiset(kept[1..])[q] + One(q == kept[0])
    ensures Count(s.(lost := s.lost + {kept[0]}, main := Restoring(kept[1..])), q) == Count(s, q)
  {
  }

  // ---------------------------------------------------------------------------
  // The tick

  lemma PopKeeps(s: State)
    requires PlaceInv(s) && Enabled(s, Pop)
    ensures PlaceInv(Next(s, Pop))
  {
    var s', x := Next(s, Pop), s.callbacks[0];
    forall q ensures Count(s', q) == Count(s, q) {
      HeadCount(s.callbacks, q);
    }
    hide Count;
    Moved(s, s');
    assert LanesKept(s') by {
      hide OnePlace;
      RecountLanes(s, s');
    }
    hide LanesKept, OnePlace;
    forall q | q in s'.queries ensures Homed(s', q, s'.queries[q]) {
      assert Homed(s, q, s.queries[q]);
    }
  }

  lemma TakenQuery(s: State, x: QueryId)
    requires PlaceInv(s) && HandleInv(s) && s.tick == Taken(x)
    ensures x in s.queries && Held(s, s.queries[x]) && s.queries[x].handle in s.lives.handles
    ensures s.lives.handles[s.queries[x].handle] == s.queries[x].generation
  {
    assert Count(s, x) > 0;
    Somewhere(s, x);
    assert Homed(s, x, s.queries[x]);
  }

  lemma TickDrops(s: State, x: QueryId)
    requires PlaceInv(s) && (s.tick == Taken(x) || (s.tick.Running? && s.tick.query == x))
    ensures PlaceInv(DeleteQuery(s, x).(tick := NoTick))
  {
    var s1 := s.(tick := NoTick);
    forall q ensures Count(s1, q) == Count(s, q) - One(q == x) {
    }
    hide Count;
    forall q | q in s.queries && q != x ensures Homed(s1, q, s.queries[q]) {
      assert Homed(s, q, s.queries[q]);
    }
    assert LanesKept(s1) by {
      hide OnePlace;
      RecountLanes(s, s1);
    }
    hide LanesKept, OnePlace;
    Dropped(s, s1, x);
    assert DeleteQuery(s, x).(tick := NoTick) == DeleteQuery(s1, x);
  }

  lemma TickRuns(s: State, x: QueryId, t: Token)
    requires PlaceInv(s) && s.tick == Taken(x) && x in s.queries && t == s.queries[x].generation
    ensures PlaceInv(s.(tick := Running(x, t)))
  {
    var s' := s.(tick := Running(x, t));
    forall q ensures Count(s', q) == Count(s, q) {
    }
    hide Count;
    Moved(s, s');
    assert LanesKept(s') by {
      hide OnePlace;
      RecountLanes(s, s');
    }
    hide LanesKept, OnePlace;
    forall q | q in s'.queries ensures Homed(s', q, s'.queries[q]) {
      assert Homed(s, q, s.queries[q]);
    }
  }

  lemma TakenBound(s: State, x: QueryId)
    requires Tokens.TokenInv(s) && x in s.queries && !Cancelled(s, s.queries[x])
    ensures s.queries[x].target.Some? ==> s.queries[x].target.value in s.lives.orms
    ensures s.queries[x].owner in s.lives.scripts
  {
    assert Tokens.Bound(s.lives, s.queries[x]);
    Tokens.LiveQuery(s.lives, s.queries[x]);
  }

  lemma DispatchKeeps(s: State, x: QueryId, found: bool, fits: bool)
    requires PlaceInv(s) && HandleInv(s) && Tokens.TokenInv(s) && s.tick == Taken(x)
    ensures PlaceInv(NextDispatch(s, x, found, fits))
  {
    hide PlaceInv, Tokens.TokenInv, HandleInv, NowApplied, NowStray;
    TakenQuery(s, x);
    var y := s.queries[x];
    if Cancelled(s, y) {
      TickDrops(s, x);
    } else {
      TakenBound(s, x);
      var log := s.log.(applied := NowApplied(s, x), stray := NowStray(s, x, fits));
      if y.callback == "" || !found {
        TickDrops(s, x);
        LogKeeps(DeleteQuery(s, x).(tick := NoTick), log);
      } else {
        TickRuns(s, x, y.generation);
        LogKeeps(s.(tick := Running(x, y.generation)),
                 log.(runs := s.log.runs + [Run(x, y.script, s.lives.scripts[y.owner])]));
      }
    }
  }

  lemma ReturnKeeps(s: State, x: QueryId, t: Token)
    requires PlaceInv(s) && HandleInv(s) && Tokens.TokenInv(s) && s.tick == Running(x, t)
    ensures PlaceInv(NextReturn(s, x, t))
  {
    assert Tokens.Bound(s.lives, s.queries[x]);
    hide OnePlace, LanesKept, Count;
    TickDrops(s, x);
  }

  // ---------------------------------------------------------------------------
  // Every run

  /** Script code may do anything here: it changes the lifetimes and nothing else. */
  lemma NativeKeeps(s: State, t: Step)
    requires PlaceInv(s) && Enabled(s, t)
    requires t.LoadScript? || t.UnloadScript? || t.CreateOrm? || t.ChangeOrm? || t.DestroyOrm?
    ensures PlaceInv(Next(s, t))
  {
    hide PlaceInv;
    LivesKeeps(s, Next(s, t).lives);
  }

  lemma IssueOrmKeeps(s: State, o: Addr, kind: OrmQuery, amx: Addr, callback: string)
    requires PlaceInv(s) && HandleInv(s) && Tokens.TokenInv(s) && s.main.Free? && o in s.lives.orms
    ensures PlaceInv(NextIssueOrm(s, o, kind, amx, callback))
  {
    var orm := s.lives.orms[o];
    assert orm.handle in s.lives.handles;
    hide PlaceInv, NextIssue;
    LogKeeps(s, Touch(s, Needed(orm.layout, kind)).log);
    var binding := Some(Binding(o, orm.lifetime, orm.layout, kind));
    IssueKeeps(Touch(s, Needed(orm.layout, kind)), orm.handle, 0, amx, binding, callback);
  }

  lemma PlaceInvKept(s: State, t: Step)
    requires PlaceInv(s) && HandleInv(s) && Tokens.TokenInv(s) && Enabled(s, t)
    ensures PlaceInv(Next(s, t))
  {
    hide PlaceInv, HandleInv, Tokens.TokenInv, NextConnect, NextIssue, NextIssueOrm, NextPush, NextCount, NextTake,
      NextExecute, NextDeliver, NextClose, NextStop, NextDrain, NextSweep, NextRestore, NextDispatch, NextReturn;
    match t
    case Connect(h, pool) => ConnectKeeps(s, h, pool);
    case Issue(h, conn, amx, callback) => IssueKeeps(s, h, conn, amx, None, callback);
    case IssueOrm(o, kind, amx, callback) => IssueOrmKeeps(s, o, kind, amx, callback);
    case Push => PushKeeps(s, s.main.query);
    case Count => CountKeeps(s, s.main.handle);
    case Take(h, i) => TakeKeeps(s, h, i);
    case Execute(h, i, outcome) => ExecuteKeeps(s, h, i, outcome);
    case Deliver(h, i) => DeliverKeeps(s, h, i);
    case Exit(h, i) => ExitKeeps(s, h, i);
    case Close(h) => CloseKeeps(s, h);
    case Stop => StopKeeps(s, s.main.handle, s.main.conn);
    case Join => JoinKeeps(s);
    case Drain => DrainKeeps(s, s.main.handle, s.main.conn);
    case Sweep => SweepKeeps(s, s.main.handle, s.main.kept);
    case Restore => RestoreKeeps(s, s.main.kept);
    case Pop => PopKeeps(s);
    case Dispatch(found, fits) => DispatchKeeps(s, s.tick.query, found, fits);
    case Return => ReturnKeeps(s, s.tick.query, s.tick.lifetime);
    case LoadScript(_) => NativeKeeps(s, t);
    case UnloadScript(_) => NativeKeeps(s, t);
    case CreateOrm(_, _, _) => NativeKeeps(s, t);
    case ChangeOrm(_, _) => NativeKeeps(s, t);
    case UseOrm(o, used) => LogKeeps(s, Touch(s, used).log);
    case DestroyOrm(_) => NativeKeeps(s, t);
  }

  lemma ExitKeeps(s: State, h: Addr, i: nat)
    requires PlaceInv(s) && Enabled(s, Exit(h, i))
    ensures PlaceInv(SetConn(s, h, i, ConnAt(s, h, i).(worker := Exited)))
  {
    hide PlaceInv, SetConn;
    var c := ConnAt(s, h, i);
    assert forall q :: Holds(c.(worker := Exited).worker, q) == Holds(c.worker, q);
    SameWork(s, h, i, c.(worker := Exited));
  }

  lemma {:induction false} PlacesAlways(steps: seq<Step>)
    ensures PlaceInv(After(steps))
  {
    if steps == [] {
      forall q ensures Count(Init(), q) == 0 {
      }
    } else {
      var init := steps[..|steps| - 1];
      PlacesAlways(init);
      HandlesAlways(init);
      Tokens.TokensAlways(init);
      hide PlaceInv, HandleInv, Tokens.TokenInv, Enabled, Next;
      if Enabled(After(init), steps[|steps| - 1]) {
        PlaceInvKept(After(init), steps[|steps| - 1]);
      }
    }
  }

  // ---------------------------------------------------------------------------
  // What the runs show

  /** No run touches an object after its deletion, or deletes one twice. */
  lemma NoFault(steps: seq<Step>)
    ensures !After(steps).fault
  {
    PlacesAlways(steps);
  }

  /** Every query object that exists is in exactly one place, and a deleted one is in none. */
  lemma ExactlyOnePlace(steps: seq<Step>, q: QueryId)
    ensures Count(After(steps), q) == if q in After(steps).queries then 1 else 0
  {
    PlacesAlways(steps);
  }

  /** Outside `mysql_close`, every query that is queued, executing, or waiting for the tick belongs to a handle that
      is open, and is the very handle it was issued on. A query of a closed handle can only be the one whose public
      function is running, or one that `ClearByHandle` could not put back. */
  lemma QueuedHandlesOpen(steps: seq<Step>, q: QueryId)
    requires var s := After(steps);
             q in s.queries && s.main.Free? && q !in s.lost && !(s.tick.Running? && s.tick.query == q)
    ensures var s := After(steps);
            Usable(s, s.queries[q].handle) && s.lives.handles[s.queries[q].handle] == s.queries[q].generation
  {
    PlacesAlways(steps);
    HandlesAlways(steps);
    var s := After(steps);
    assert Homed(s, q, s.queries[q]);
  }

  /** When the public function returns, the handle's lifetime is alive exactly if the handle at that address is still
      the one whose query this is. */
  lemma TickHandle(steps: seq<Step>)
    requires After(steps).tick.Running?
    ensures var s := After(steps);
            s.tick.query in s.queries
            && var x := s.queries[s.tick.query];
               (!Expired(s, s.tick.lifetime)
                <==> x.handle in s.lives.handles && s.lives.handles[x.handle] == x.generation)
  {
    PlacesAlways(steps);
    Tokens.TokensAlways(steps);
    var s := After(steps);
    assert Tokens.Bound(s.lives, s.queries[s.tick.query]);
  }

  /** Identities are used once. */
  ghost predicate NoBirth(s: State, s': State) {
    && s.born <= s'.born
    && (forall q :: q in s'.queries ==> q in s.queries || q >= s.born)
    && (forall q :: q in s.log.lanes ==> q in s'.log.lanes)
  }

  lemma StepBirths(s: State, t: Step)
    requires Enabled(s, t)
    ensures NoBirth(s, Next(s, t))
  {
    if t.Issue? {
      IssueBirths(s, t.handle, t.conn, t.amx, None, t.callback);
    } else if Tokens.IsTame(t) {
      Tokens.TameStep(s, t);
      hide Tokens.Tamed, Next, Enabled;
    } else {
      hide NextIssue, NowApplied;
      if t.IssueOrm? && s.lives.orms[t.orm].handle in s.lives.handles {
        var orm := s.lives.orms[t.orm];
        IssueBirths(s, orm.handle, 0, t.amx, Some(Binding(t.orm, orm.lifetime, orm.layout, t.kind)), t.callback);
      }
    }
  }

  lemma IssueBirths(s: State, h: Addr, conn: nat, amx: Addr, binding: Option<Binding>, callback: string)
    requires h in s.lives.handles
    ensures NoBirth(s, NextIssue(s, h, conn, amx, binding, callback))
  {
  }

  /** A deleted query is deleted for good: whatever happens later, its identity is nowhere. */
  lemma DeletedOnce(steps: seq<Step>, more: seq<Step>, q: QueryId)
    requires q in After(steps).log.lanes && q !in After(steps).queries
    ensures q !in After(steps + more).queries && Count(After(steps + more), q) == 0
  {
    GoneForGood(steps, more, q);
    PlacesAlways(steps + more);
    hide Count, After;
    assert Count(After(steps + more), q) == One(q in After(steps + more).queries);
  }

  lemma {:induction false} GoneForGood(steps: seq<Step>, more: seq<Step>, q: QueryId)
    requires q in After(steps).log.lanes && q !in After(steps).queries
    ensures q !in After(steps + more).queries && q in After(steps + more).log.lanes
  {
    if more == [] {
      assert steps + more == steps;
    } else {
      var init, t := more[..|more| - 1], more[|more| - 1];
      GoneForGood(steps, init, q);
      PlacesAlways(steps + init);
      AfterStep(steps, init, more);
      hide After, PlaceInv, Next, Enabled;
      if Enabled(After(steps + init), t) {
        GoneNext(After(steps + init), t, q);
      }
    }
  }

  lemma AfterStep(steps: seq<Step>, init: seq<Step>, more: seq<Step>)
    requires more != [] && init == more[..|more| - 1]
    ensures var s, t := After(steps + init), more[|more| - 1];
            After(steps + more) == if Enabled(s, t) then Next(s, t) else s
  {
    hide Next, Enabled;
    InitOfSum(steps, more, init);
    LastStep(steps + more, steps + init);
  }

  lemma LastStep(steps: seq<Step>, init: seq<Step>)
    requires steps != [] && init == steps[..|steps| - 1]
    ensures var s, t := After(init), steps[|steps| - 1];
            After(steps) == if Enabled(s, t) then Next(s, t) else s
  {
    hide Next, Enabled;
  }

  lemma InitOfSum<T>(a: seq<T>, b: seq<T>, init: seq<T>)
    requires b != [] && init == b[..|b| - 1]
    ensures a + b != [] && (a + b)[..|a + b| - 1] == a + init && (a + b)[|a + b| - 1] == b[|b| - 1]
  {
  }

  lemma GoneNext(s: State, t: Step, q: QueryId)
    requires PlaceInv(s) && Enabled(s, t) && q in s.log.lanes && q !in s.queries
    ensures q !in Next(s, t).queries && q in Next(s, t).log.lanes
  {
    StepBirths(s, t);
    hide Next, Enabled, OnePlace, AllHomed;
  }
}
