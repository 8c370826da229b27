/** Handles over every run: which handle objects exist, and how far `mysql_close` has come with one. */
module LifecycleHandles {
  import opened Lifecycle

  predicate IsClosing(m: Main) {
    m.Stopping? || m.Joining? || m.Draining?
  }

  /** The connection has been destroyed: its worker has ended and its queue is empty. */
  predicate Gone(c: Conn) {
    c.worker.Exited? && c.queue == []
  }

  /** The handle being closed exists, and its connections before `main.conn` are gone. */
  ghost predicate ClosingState(s: State, m: Main)
    requires IsClosing(m)
  {
    && m.handle in s.handles && m.handle !in s.lives.handles
    && m.conn <= |s.handles[m.handle].conns|
    && (!m.Stopping? ==> m.conn < |s.handles[m.handle].conns|)
    && (m.Draining? ==> s.handles[m.handle].conns[m.conn].worker.Exited?)
    && forall j :: 0 <= j < m.conn ==> Gone(s.handles[m.handle].conns[j])
  }

  /** Every usable handle exists, and the only other one is that being closed. */
  ghost predicate HandleInv(s: State) {
    && (forall h :: h in s.lives.handles ==> h in s.handles && s.handles[h].generation == s.lives.handles[h])
    && (forall h :: h in s.handles ==> h in s.lives.handles || (IsClosing(s.main) && s.main.handle == h))
    && (IsClosing(s.main) ==> ClosingState(s, s.main))
    && (s.main.Sweeping? ==> s.main.handle !in s.handles)
    && (s.main.Pushed? ==> s.main.handle in s.lives.handles)
    && (s.tick.Taken? ==> s.main.Free?)
  }

  /** Only one connection, of a handle not gone that far, changes. */
  ghost predicate OneConn(s: State, s': State) {
    && s'.lives.handles == s.lives.handles
    && (forall h :: h in s'.handles <==> h in s.handles)
    && (forall h :: h in s.handles ==>
          s'.handles[h].generation == s.handles[h].generation && |s'.handles[h].conns| == |s.handles[h].conns|)
    && (forall h, j :: h in s.handles && 0 <= j < |s.handles[h].conns| ==>
          ConnStep(s.handles[h].conns[j], s'.handles[h].conns[j]))
  }

  /** A connection that is gone, or whose worker has ended, stays so. */
  predicate ConnStep(c: Conn, c': Conn) {
    && (Gone(c) ==> Gone(c'))
    && (c.worker.Exited? ==> c'.worker.Exited?)
  }

  lemma OneConnKeeps(s: State, s': State)
    requires HandleInv(s) && OneConn(s, s') && s'.main == s.main && s'.tick == s.tick
    ensures HandleInv(s')
  {
    if IsClosing(s.main) {
      forall j | 0 <= j < s.main.conn ensures Gone(s'.handles[s.main.handle].conns[j]) {
        assert Gone(s.handles[s.main.handle].conns[j]);
      }
    }
  }

  lemma SetConnIsOne(s: State, h: Addr, i: nat, c: Conn)
    requires HasConn(s, h, i) && ConnStep(ConnAt(s, h, i), c)
    ensures OneConn(s, SetConn(s, h, i, c))
  {
  }

  /** The main thread goes to a state that says nothing about handles. */
  lemma FreeKeeps(s: State, s': State)
    requires HandleInv(s) && OneConn(s, s') && !IsClosing(s.main)
    requires s'.main.Free? || s'.main.Created? || s'.main.Restoring? || s'.main == s.main
             || (s'.main.Pushed? && s'.main.handle in s.lives.handles)
    requires s'.tick.Taken? ==> s'.main.Free?
    ensures HandleInv(s')
  {
  }

  lemma WorkerKeeps(s: State, t: Step)
    requires HandleInv(s) && Enabled(s, t) && (t.Take? || t.Execute? || t.Deliver? || t.Exit?)
    ensures HandleInv(Next(s, t))
  {
    hide HandleInv, OneConn;
    WorkerIsOne(s, t);
    OneConnKeeps(s, Next(s, t));
  }

  lemma WorkerIsOne(s: State, t: Step)
    requires Enabled(s, t) && (t.Take? || t.Execute? || t.Deliver? || t.Exit?)
    ensures OneConn(s, Next(s, t)) && Next(s, t).main == s.main && Next(s, t).tick == s.tick
  {
    hide NextTake, NextExecute, NextDeliver;
    match t
    case Take(h, i) => TakeIsOne(s, h, i);
    case Execute(h, i, outcome) => ExecuteIsOne(s, h, i, outcome);
    case Deliver(h, i) => DeliverIsOne(s, h, i);
    case Exit(h, i) => SetConnIsOne(s, h, i, ConnAt(s, h, i).(worker := Exited));
  }

  lemma TakeIsOne(s: State, h: Addr, i: nat)
    requires HasConn(s, h, i) && ConnAt(s, h, i).worker.Idle? && ConnAt(s, h, i).queue != []
    ensures OneConn(s, NextTake(s, h, i)) && NextTake(s, h, i).main == s.main && NextTake(s, h, i).tick == s.tick
  {
  }

  lemma ExecuteIsOne(s: State, h: Addr, i: nat, outcome: Outcome)
    requires HasConn(s, h, i) && ConnAt(s, h, i).worker.Executing?
    ensures var s' := NextExecute(s, h, i, outcome); OneConn(s, s') && s'.main == s.main && s'.tick == s.tick
  {
  }

  lemma DeliverIsOne(s: State, h: Addr, i: nat)
    requires HasConn(s, h, i) && ConnAt(s, h, i).worker.Executed?
    ensures var s' := NextDeliver(s, h, i); OneConn(s, s') && s'.main == s.main && s'.tick == s.tick
  {
  }

  lemma NativeKeeps(s: State, t: Step)
    requires HandleInv(s) && Enabled(s, t)
    requires IsNative(t)
    ensures HandleInv(Next(s, t))
  {
    hide HandleInv, OneConn;
    NativeIsOne(s, t);
    NativesFree(s, t);
    FreeKeeps(s, Next(s, t));
  }

  predicate IsNative(t: Step) {
    t.LoadScript? || t.UnloadScript? || t.CreateOrm? || t.ChangeOrm? || t.UseOrm? || t.DestroyOrm? || t.Issue?
    || t.IssueOrm?
  }

  lemma NativeIsOne(s: State, t: Step)
    requires Enabled(s, t) && IsNative(t)
    ensures OneConn(s, Next(s, t))
  {
  }

  lemma NativesFree(s: State, t: Step)
    requires Enabled(s, t) && IsNative(t)
    ensures var s' := Next(s, t);
            s.main.Free? && (s'.main.Free? || s'.main.Created?) && (s'.tick.Taken? ==> s'.main.Free?)
  {
  }

  lemma ConnectKeeps(s: State, h: Addr, pool: nat)
    requires HandleInv(s) && s.main.Free? && h !in s.handles
    ensures HandleInv(NextConnect(s, h, pool))
  {
  }

  lemma PushKeeps(s: State, q: QueryId)
    requires HandleInv(s) && s.main == Created(q)
    ensures HandleInv(NextPush(s, q))
  {
  }

  lemma CountKeeps(s: State, h: Addr)
    requires HandleInv(s) && s.main == Pushed(h)
    ensures HandleInv(NextCount(s, h))
  {
  }

  lemma CloseKeeps(s: State, h: Addr)
    requires HandleInv(s) && ScriptRuns(s) && h in s.lives.handles
    ensures HandleInv(NextClose(s, h))
  {
  }

  lemma StopKeeps(s: State, h: Addr, i: nat)
    requires HandleInv(s) && s.main == Stopping(h, i)
    ensures HandleInv(NextStop(s, h, i))
  {
  }

  lemma DrainKeeps(s: State, h: Addr, i: nat)
    requires HandleInv(s) && s.main == Draining(h, i)
    ensures HandleInv(NextDrain(s, h, i))
  {
    if HasConn(s, h, i) && ConnAt(s, h, i).queue != [] {
      hide HandleInv, OneConn;
      var c := ConnAt(s, h, i);
      SetConnIsOne(s, h, i, c.(queue := c.queue[1..]));
      DeleteIsOne(s, SetConn(s, h, i, c.(queue := c.queue[1..])), c.queue[0]);
      OneConnKeeps(s, NextDrain(s, h, i));
    }
  }

  lemma DeleteIsOne(s: State, s1: State, q: QueryId)
    requires OneConn(s, s1)
    ensures OneConn(s, DeleteQuery(s1, q))
  {
  }

  lemma SweepKeeps(s: State, h: Addr, kept: seq<QueryId>)
    requires HandleInv(s) && s.main == Sweeping(h, kept)
    ensures HandleInv(NextSweep(s, h, kept))
  {
  }

  lemma RestoreKeeps(s: State, kept: seq<QueryId>)
    requires HandleInv(s) && s.main == Restoring(kept)
    ensures HandleInv(NextRestore(s, kept))
  {
  }

  /** A dispatch deletes the query or begins to run its public function, and changes nothing else but the log. */
  ghost predicate Dispatched(s: State, s': State, q: QueryId) {
    && s' == s.(queries := s'.queries, tick := s'.tick, log := s'.log)
    && s'.log.lanes == s.log.lanes && s'.log.submitted == s.log.submitted && s'.log.closed == s.log.closed
    && ((s'.queries == s.queries - {q} && s'.tick.NoTick? && s'.log.runs == s.log.runs)
        || (s'.queries == s.queries && s'.tick.Running? && s'.tick.query == q && |s'.log.runs| == |s.log.runs| + 1
            && s'.log.runs[..|s.log.runs|] == s.log.runs && s'.log.runs[|s.log.runs|].query == q))
  }

  lemma DispatchFrame(s: State, q: QueryId, found: bool, fits: bool)
    ensures var s' := NextDispatch(s, q, found, fits); s' == Fault(s) || (q in s.queries && Dispatched(s, s', q))
  {
    hide NowApplied, NowStray, Cancelled, Usable;
  }

  lemma DispatchKeeps(s: State, q: QueryId, found: bool, fits: bool)
    requires HandleInv(s) && s.tick == Taken(q)
    ensures HandleInv(NextDispatch(s, q, found, fits))
  {
    hide NextDispatch;
    DispatchFrame(s, q, found, fits);
  }

  lemma ReturnKeeps(s: State, q: QueryId, lifetime: Token)
    requires HandleInv(s) && s.main.Free?
    ensures HandleInv(NextReturn(s, q, lifetime))
  {
  }

  lemma PopKeeps(s: State)
    requires HandleInv(s) && Enabled(s, Pop)
    ensures HandleInv(Next(s, Pop))
  {
  }

  lemma JoinKeeps(s: State)
    requires HandleInv(s) && Enabled(s, Join)
    ensures HandleInv(Next(s, Join))
  {
  }

  lemma HandleInvKept(s: State, t: Step)
    requires HandleInv(s) && Enabled(s, t)
    ensures HandleInv(Next(s, t))
  {
    hide HandleInv, NextConnect, NextPush, NextCount, NextClose, NextStop, NextDrain, NextSweep, NextRestore,
      NextDispatch, NextReturn;
    match t
    case Connect(h, pool) => ConnectKeeps(s, h, pool);
    case Push => PushKeeps(s, s.main.query);
    case Count => CountKeeps(s, s.main.handle);
    case Close(h) => CloseKeeps(s, h);
    case Stop => StopKeeps(s, s.main.handle, s.main.conn);
    case Join => JoinKeeps(s);
    case Drain => DrainKeeps(s, s.main.handle, s.main.conn);
    case Sweep => SweepKeeps(s, s.main.handle, s.main.kept);
    case Restore => RestoreKeeps(s, s.main.kept);
    case Pop => PopKeeps(s);
    case Dispatch(found, fits) => DispatchKeeps(s, s.tick.query, found, fits);
    case Return => ReturnKeeps(s, s.tick.query, s.tick.lifetime);
    case Take(_, _) => WorkerKeeps(s, t);
    case Execute(_, _, _) => WorkerKeeps(s, t);
    case Deliver(_, _) => WorkerKeeps(s, t);
    case Exit(_, _) => WorkerKeeps(s, t);
    case LoadScript(_) => NativeKeeps(s, t);
    case UnloadScript(_) => NativeKeeps(s, t);
    case CreateOrm(_, _, _) => NativeKeeps(s, t);
    case ChangeOrm(_, _) => NativeKeeps(s, t);
    case UseOrm(_, _) => NativeKeeps(s, t);
    case DestroyOrm(_) => NativeKeeps(s, t);
    case Issue(_, _, _, _) => NativeKeeps(s, t);
    case IssueOrm(_, _, _, _) => NativeKeeps(s, t);
  }

  lemma {:induction false} HandlesAlways(steps: seq<Step>)
    ensures HandleInv(After(steps))
  {
    if steps != [] {
      var init := steps[..|steps| - 1];
      HandlesAlways(init);
      hide HandleInv, Enabled, Next;
      if Enabled(After(init), steps[|steps| - 1]) {
        HandleInvKept(After(init), steps[|steps| - 1]);
      }
    }
  }
}
