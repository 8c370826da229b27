/** The number a handle reports as unprocessed, over every run. */
module LifecycleCounter {
  import opened Lifecycle
  import opened LifecycleHandles
  import Places = LifecyclePlaces

  /** The queries a connection has accepted and not executed. */
  function Unprocessed(c: Conn): nat {
    |c.queue| + (if c.worker.Executing? then 1 else 0)
  }

  function Pending(conns: seq<Conn>): nat {
    if conns == [] then 0 else Pending(conns[..|conns| - 1]) + Unprocessed(conns[|conns| - 1])
  }

  lemma {:induction false} PendingUpdate(conns: seq<Conn>, i: nat, c: Conn)
    requires i < |conns|
    ensures Pending(conns[i := c]) == Pending(conns) - Unprocessed(conns[i]) + Unprocessed(c)
  {
    var n := |conns| - 1;
    if i == n {
      assert conns[i := c][..n] == conns[..n];
    } else {
      PendingUpdate(conns[..n], i, c);
      assert conns[i := c][..n] == conns[..n][i := c];
    }
  }

  /** The count is the sum over the connections. */
  lemma {:induction false} PendingAppend(a: seq<Conn>, b: seq<Conn>)
    ensures Pending(a + b) == Pending(a) + Pending(b)
    decreases |b|
  {
    if b == [] {
      assert a + b == a;
    } else {
      assert (a + b)[..|a + b| - 1] == a + b[..|b| - 1];
      PendingAppend(a, b[..|b| - 1]);
    }
  }

  lemma PendingOne(c: Conn)
    ensures Pending([c]) == |c.queue| + (if c.worker.Executing? then 1 else 0)
  {
    assert [c][..0] == [];
  }

  ghost predicate Bounded(handle: Handle) {
    && |handle.conns| <= POOL_LIMIT + 1 && handle.counter < WORD
    && forall i :: 0 <= i < |handle.conns| ==> |handle.conns[i].queue| <= QUEUE_CAPACITY
  }

  lemma {:induction false} PendingBound(conns: seq<Conn>, n: nat)
    requires |conns| <= n && forall i :: 0 <= i < |conns| ==> |conns[i].queue| <= QUEUE_CAPACITY
    ensures Pending(conns) <= n * (QUEUE_CAPACITY + 1)
  {
    if conns != [] {
      PendingBound(conns[..|conns| - 1], n - 1);
    }
  }

  /** Pushed by the native that is running, but not counted yet. */
  function Uncounted(s: State, h: Addr): nat {
    if s.main == Pushed(h) then 1 else 0
  }

  /** Counters wrap around, so that a worker may be done with a query before it is counted. */
  ghost predicate Counted(s: State, h: Addr)
    requires h in s.handles
  {
    CountedBy(s.handles[h], Uncounted(s, h))
  }

  predicate CountedBy(handle: Handle, uncounted: nat) {
    handle.counter < WORD && (handle.counter + uncounted) % WORD == Pending(handle.conns) % WORD
  }

  ghost predicate CounterInv(s: State) {
    && (forall h :: h in s.handles ==> Bounded(s.handles[h]))
    && (forall h :: h in s.handles && h in s.lives.handles ==> Counted(s, h))
  }

  // ---------------------------------------------------------------------------
  // Steps

  /** The handles other than h are as they were. */
  ghost predicate OnlyHandle(s: State, s': State, h: Addr) {
    && s'.lives.handles == s.lives.handles
    && (forall k :: k in s'.handles ==> k in s.handles)
    && (forall k :: k in s'.handles && k != h ==> s'.handles[k] == s.handles[k] && Uncounted(s', k) == Uncounted(s, k))
  }

  lemma OnlyKeeps(s: State, s': State, h: Addr)
    requires CounterInv(s) && OnlyHandle(s, s', h)
    requires h in s'.handles ==> Bounded(s'.handles[h]) && (h in s'.lives.handles ==> Counted(s', h))
    ensures CounterInv(s')
  {
    hide Pending;
  }

  /** No handle changes; the main thread is not about to count, before or after. */
  lemma StillKeeps(s: State, s': State)
    requires CounterInv(s)
    requires forall k :: k in s'.handles ==> k in s.handles && s'.handles[k] == s.handles[k]
    requires forall k :: k in s'.lives.handles ==> k in s.lives.handles
    requires forall k :: k in s'.lives.handles ==> Uncounted(s', k) == Uncounted(s, k)
    ensures CounterInv(s')
  {
    hide Pending;
  }

  lemma ConnKeeps(s: State, h: Addr, i: nat, c: Conn)
    requires CounterInv(s) && HasConn(s, h, i)
    requires Unprocessed(c) == Unprocessed(ConnAt(s, h, i)) && |c.queue| <= QUEUE_CAPACITY
    ensures CounterInv(SetConn(s, h, i, c))
  {
    PendingUpdate(s.handles[h].conns, i, c);
    hide Pending, Unprocessed;
    OnlyKeeps(s, SetConn(s, h, i, c), h);
  }

  lemma QueueBound(s: State, h: Addr, i: nat)
    requires CounterInv(s) && HasConn(s, h, i)
    ensures |ConnAt(s, h, i).queue| <= QUEUE_CAPACITY
  {
    assert Bounded(s.handles[h]);
  }

  lemma TakeKeeps(s: State, h: Addr, i: nat)
    requires CounterInv(s) && Enabled(s, Take(h, i))
    ensures CounterInv(NextTake(s, h, i))
  {
    QueueBound(s, h, i);
    var c := ConnAt(s, h, i);
    hide CounterInv;
    ConnKeeps(s, h, i, c.(queue := c.queue[1..], worker := Executing(c.queue[0])));
  }

  /** One query less is pending on the connection, and the handle has counted one off. */
  lemma ExecuteKeeps(s: State, h: Addr, i: nat, outcome: Outcome)
    requires CounterInv(s) && Places.PlaceInv(s) && Enabled(s, Execute(h, i, outcome))
    ensures CounterInv(NextExecute(s, h, i, outcome))
  {
    Places.BusyQuery(s, h, i);
    hide Places.PlaceInv;
    var c, s' := ConnAt(s, h, i), NextExecute(s, h, i, outcome);
    var c' := c.(worker := Executed(c.worker.query));
    var counter := (s.handles[h].counter + WORD - 1) % WORD;
    assert Bounded(s.handles[h]);
    if h in s.lives.handles {
      assert Counted(s, h);
      ExecuteCounts(s.handles[h], i, c', Uncounted(s, h));
    }
    hide Pending, CountedBy;
    assert s'.handles[h] == Handle(s.handles[h].generation, counter, s.handles[h].conns[i := c']);
    OnlyKeeps(s, s', h);
  }

  lemma ExecuteCounts(handle: Handle, i: nat, c: Conn, uncounted: nat)
    requires CountedBy(handle, uncounted) && i < |handle.conns| && Unprocessed(c) == Unprocessed(handle.conns[i]) - 1
    ensures CountedBy(Handle(handle.generation, (handle.counter + WORD - 1) % WORD, handle.conns[i := c]), uncounted)
  {
    PendingUpdate(handle.conns, i, c);
    hide Pending, Unprocessed;
    CountOff(handle.counter, uncounted, Pending(handle.conns));
  }

  lemma CountOff(counter: nat, uncounted: nat, pending: nat)
    requires pending > 0 && (counter + uncounted) % WORD == pending % WORD
    ensures ((counter + WORD - 1) % WORD + uncounted) % WORD == (pending - 1) % WORD
  {
  }

  lemma CountOn(counter: nat, pending: nat)
    requires (counter + 1) % WORD == pending % WORD
    ensures ((counter + 1) % WORD + 0) % WORD == pending % WORD
  {
  }

  lemma DeliverKeeps(s: State, h: Addr, i: nat)
    requires CounterInv(s) && Enabled(s, Deliver(h, i))
    ensures CounterInv(NextDeliver(s, h, i))
  {
    QueueBound(s, h, i);
    hide CounterInv;
    var s1 := SetConn(s, h, i, ConnAt(s, h, i).(worker := Idle));
    ConnKeeps(s, h, i, ConnAt(s, h, i).(worker := Idle));
    StillKeeps(s1, NextDeliver(s, h, i));
  }

  lemma ExitKeeps(s: State, h: Addr, i: nat)
    requires CounterInv(s) && Enabled(s, Exit(h, i))
    ensures CounterInv(SetConn(s, h, i, ConnAt(s, h, i).(worker := Exited)))
  {
    QueueBound(s, h, i);
    hide CounterInv;
    ConnKeeps(s, h, i, ConnAt(s, h, i).(worker := Exited));
  }

  lemma ConnectKeeps(s: State, h: Addr, pool: nat)
    requires CounterInv(s) && Enabled(s, Connect(h, pool))
    ensures CounterInv(NextConnect(s, h, pool))
  {
    var s' := NextConnect(s, h, pool);
    PendingZero(s'.handles[h].conns);
    hide Pending;
    forall k | k in s'.handles && k in s'.lives.handles ensures Counted(s', k) {
      if k != h {
        assert Counted(s, k);
      }
    }
  }

  lemma {:induction false} PendingZero(conns: seq<Conn>)
    requires forall i :: 0 <= i < |conns| ==> Unprocessed(conns[i]) == 0
    ensures Pending(conns) == 0
  {
    if conns != [] {
      PendingZero(conns[..|conns| - 1]);
    }
  }

  /** Between the push and the count, a query is pending and not counted. */
  lemma PushKeeps(s: State, q: QueryId)
    requires CounterInv(s) && Places.PlaceInv(s) && s.main == Created(q)
    ensures CounterInv(NextPush(s, q))
  {
    Places.CreatedQuery(s, q);
    hide Places.PlaceInv, CounterInv;
    var h, i := s.queries[q].handle, s.queries[q].conn;
    if HasConn(s, h, i) && |ConnAt(s, h, i).queue| < QUEUE_CAPACITY {
      PushedKeeps(s, h, i, q, s.log.(submitted := s.log.submitted + [q]));
    } else {
      StillKeeps(s, NextPush(s, q));
    }
  }

  lemma PushedKeeps(s: State, h: Addr, i: nat, q: QueryId, log: Log)
    requires CounterInv(s) && s.main == Created(q) && HasConn(s, h, i) && |ConnAt(s, h, i).queue| < QUEUE_CAPACITY
    ensures CounterInv(SetConn(s, h, i, ConnAt(s, h, i).(queue := ConnAt(s, h, i).queue + [q]))
                       .(main := Pushed(h), log := log))
  {
    var c := ConnAt(s, h, i).(queue := ConnAt(s, h, i).queue + [q]);
    var handle := s.handles[h].(conns := s.handles[h].conns[i := c]);
    assert Bounded(s.handles[h]);
    if h in s.lives.handles {
      assert Counted(s, h);
      PushCounts(s.handles[h], i, c);
    }
    hide Pending, CountedBy;
    var s' := SetConn(s, h, i, c).(main := Pushed(h), log := log);
    assert s'.handles[h] == handle;
    OnlyKeeps(s, s', h);
  }

  lemma PushCounts(handle: Handle, i: nat, c: Conn)
    requires CountedBy(handle, 0) && i < |handle.conns| && Unprocessed(c) == Unprocessed(handle.conns[i]) + 1
    ensures CountedBy(handle.(conns := handle.conns[i := c]), 1)
  {
    PendingUpdate(handle.conns, i, c);
    hide Pending, Unprocessed;
    CountAnother(handle.counter, Pending(handle.conns));
  }

  lemma CountAnother(counter: nat, pending: nat)
    requires (counter + 0) % WORD == pending % WORD
    ensures (counter + 1) % WORD == (pending + 1) % WORD
  {
  }

  lemma CountKeeps(s: State, h: Addr)
    requires CounterInv(s) && HandleInv(s) && s.main == Pushed(h)
    ensures CounterInv(NextCount(s, h))
  {
    hide Pending;
    assert Counted(s, h);
    CountOn(s.handles[h].counter, Pending(s.handles[h].conns));
    OnlyKeeps(s, NextCount(s, h), h);
  }

  lemma CloseKeeps(s: State, h: Addr)
    requires CounterInv(s) && Enabled(s, Close(h))
    ensures CounterInv(NextClose(s, h))
  {
    hide CounterInv;
    StillKeeps(s, NextClose(s, h));
  }

  lemma StopKeeps(s: State, h: Addr, i: nat)
    requires CounterInv(s) && HandleInv(s) && s.main == Stopping(h, i)
    ensures CounterInv(NextStop(s, h, i))
  {
    if HasConn(s, h, i) {
      QueueBound(s, h, i);
      hide CounterInv;
      var s1 := SetConn(s, h, i, ConnAt(s, h, i).(running := false));
      ConnKeeps(s, h, i, ConnAt(s, h, i).(running := false));
      StillKeeps(s1, NextStop(s, h, i));
    } else {
      hide CounterInv;
      StillKeeps(s, NextStop(s, h, i));
    }
  }

  /** What is drained is not counted off, but the handle cannot be asked any more. */
  lemma DrainKeeps(s: State, h: Addr, i: nat)
    requires CounterInv(s) && HandleInv(s) && s.main == Draining(h, i)
    ensures CounterInv(NextDrain(s, h, i))
  {
    var c := ConnAt(s, h, i);
    if c.queue == [] {
      hide CounterInv;
      StillKeeps(s, NextDrain(s, h, i));
    } else {
      ClosingKeeps(s, h, i, c.(queue := c.queue[1..]));
      hide CounterInv;
      StillKeeps(SetConn(s, h, i, c.(queue := c.queue[1..])), NextDrain(s, h, i));
    }
  }

  lemma ClosingKeeps(s: State, h: Addr, i: nat, c: Conn)
    requires CounterInv(s) && HasConn(s, h, i) && h !in s.lives.handles
    requires |c.queue| <= |ConnAt(s, h, i).queue|
    ensures CounterInv(SetConn(s, h, i, c))
  {
    hide Pending;
    assert Bounded(s.handles[h]);
    OnlyKeeps(s, SetConn(s, h, i, c), h);
  }

  lemma SweepKeeps(s: State, h: Addr, kept: seq<QueryId>)
    requires CounterInv(s) && s.main == Sweeping(h, kept)
    ensures CounterInv(NextSweep(s, h, kept))
  {
    hide CounterInv;
    StillKeeps(s, NextSweep(s, h, kept));
  }

  lemma RestoreKeeps(s: State, kept: seq<QueryId>)
    requires CounterInv(s) && s.main == Restoring(kept)
    ensures CounterInv(NextRestore(s, kept))
  {
    hide CounterInv;
    StillKeeps(s, NextRestore(s, kept));
  }

  lemma DispatchKeeps(s: State, q: QueryId, found: bool, fits: bool)
    requires CounterInv(s)
    ensures CounterInv(NextDispatch(s, q, found, fits))
  {
    hide CounterInv;
    StillKeeps(s, NextDispatch(s, q, found, fits));
  }

  lemma ReturnKeeps(s: State, q: QueryId, t: Token)
    requires CounterInv(s)
    ensures CounterInv(NextReturn(s, q, t))
  {
    hide CounterInv;
    StillKeeps(s, NextReturn(s, q, t));
  }

  lemma NativeKeeps(s: State, t: Step)
    requires CounterInv(s) && Enabled(s, t)
    requires t.LoadScript? || t.UnloadScript? || t.CreateOrm? || t.ChangeOrm? || t.UseOrm? || t.DestroyOrm?
             || t.Issue? || t.IssueOrm?
             || t.Join? || t.Pop?
    ensures CounterInv(Next(s, t))
  {
    hide CounterInv;
    StillKeeps(s, Next(s, t));
  }

  lemma CounterInvKept(s: State, t: Step)
    requires CounterInv(s) && Places.PlaceInv(s) && HandleInv(s) && Enabled(s, t)
    ensures CounterInv(Next(s, t))
  {
    hide CounterInv, Places.PlaceInv, HandleInv, NextConnect, NextIssue, NextIssueOrm, NextPush, NextCount, NextTake,
      NextExecute, NextDeliver, NextClose, NextStop, NextDrain, NextSweep, NextRestore, NextDispatch, NextReturn;
    match t
    case Connect(h, pool) => ConnectKeeps(s, h, pool);
    case Push => PushKeeps(s, s.main.query);
    case Count => CountKeeps(s, s.main.handle);
    case Take(h, i) => TakeKeeps(s, h, i);
    case Execute(h, i, outcome) => ExecuteKeeps(s, h, i, outcome);
    case Deliver(h, i) => DeliverKeeps(s, h, i);
    case Exit(h, i) => ExitKeeps(s, h, i);
    case Close(h) => CloseKeeps(s, h);
    case Stop => StopKeeps(s, s.main.handle, s.main.conn);
    case Drain => DrainKeeps(s, s.main.handle, s.main.conn);
    case Sweep => SweepKeeps(s, s.main.handle, s.main.kept);
    case Restore => RestoreKeeps(s, s.main.kept);
    case Dispatch(found, fits) => DispatchKeeps(s, s.tick.query, found, fits);
    case Return => ReturnKeeps(s, s.tick.query, s.tick.lifetime);
    case LoadScript(_) => NativeKeeps(s, t);
    case UnloadScript(_) => NativeKeeps(s, t);
    case CreateOrm(_, _, _) => NativeKeeps(s, t);
    case ChangeOrm(_, _) => NativeKeeps(s, t);
    case UseOrm(_, _) => NativeKeeps(s, t);
    case DestroyOrm(_) => NativeKeeps(s, t);
    case Issue(_, _, _, _) => NativeKeeps(s, t);
    case IssueOrm(_, _, _, _) => NativeKeeps(s, t);
    case Join => NativeKeeps(s, t);
    case Pop => NativeKeeps(s, t);
  }

  lemma {:induction false} CountersAlways(steps: seq<Step>)
    ensures CounterInv(After(steps))
  {
    if steps != [] {
      var init := steps[..|steps| - 1];
      CountersAlways(init);
      Places.PlacesAlways(init);
      HandlesAlways(init);
      hide CounterInv, Places.PlaceInv, HandleInv, Enabled, Next;
      if Enabled(After(init), steps[|steps| - 1]) {
        CounterInvKept(After(init), steps[|steps| - 1]);
      }
    }
  }

  // ---------------------------------------------------------------------------
  // What the runs show

  lemma CounterAt(s: State, h: Addr)
    requires CounterInv(s) && h in s.handles && h in s.lives.handles
    ensures (s.handles[h].counter + Uncounted(s, h)) % WORD == Pending(s.handles[h].conns)
    ensures s.handles[h].counter < WORD
  {
    assert Bounded(s.handles[h]) && Counted(s, h);
    PendingBound(s.handles[h].conns, POOL_LIMIT + 1);
    hide Pending;
  }

  /** Whenever a native can ask, an open handle's counter is exactly the number of its queries that are queued or
      executing on all its connections. */
  lemma CounterExact(steps: seq<Step>, h: Addr)
    requires h in After(steps).lives.handles && After(steps).main != Pushed(h)
    ensures h in After(steps).handles
    ensures After(steps).handles[h].counter == Pending(After(steps).handles[h].conns)
  {
    hide *;
    HandlesAlways(steps);
    CountersAlways(steps);
    UsableHandles(After(steps));
    CounterAt(After(steps), h);
    Uncount(After(steps), h);
  }

  lemma Uncount(s: State, h: Addr)
    requires s.main != Pushed(h)
    ensures Uncounted(s, h) == 0
  {
  }

  lemma UsableHandles(s: State)
    requires HandleInv(s)
    ensures forall h :: h in s.lives.handles ==> h in s.handles
    ensures s.main.Pushed? ==> s.main.handle in s.lives.handles
  {
  }

  /** In between, the counter is one behind, in the arithmetic of 32 bits. */
  lemma CounterBehind(steps: seq<Step>, h: Addr)
    requires After(steps).main == Pushed(h)
    ensures h in After(steps).handles
    ensures (After(steps).handles[h].counter + 1) % WORD == Pending(After(steps).handles[h].conns)
  {
    HandlesAlways(steps);
    CountersAlways(steps);
    hide After, HandleInv, CounterInv, Pending;
    UsableHandles(After(steps));
    CounterAt(After(steps), h);
  }
}
