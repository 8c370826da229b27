/** `mysql_close` comes to its end: whatever the workers are doing, a run can be continued until the handle is gone. */
module LifecycleClose {
  import opened Lifecycle
  import opened LifecycleHandles
  import Places = LifecyclePlaces
  import Memory = LifecycleMemory
  import Tokens = LifecycleTokens
  import opened LifecycleTick

  /** What happens next while a handle is being closed: the main thread goes on, unless it waits for a worker. */
  function ClosingStep(s: State): Step {
    match s.main
    case Stopping(_, _) => Stop
    case Joining(h, i) =>
      if !HasConn(s, h, i) then Join
      else (
        match ConnAt(s, h, i).worker
        case Executing(_) => Execute(h, i, Done)
        case Executed(_) => Deliver(h, i)
        case Idle => Exit(h, i)
        case Exited => Join)
    case Draining(_, _) => Drain
    case Sweeping(_, _) => Sweep
    case _ => Restore
  }

  predicate IsEnding(m: Main) {
    IsClosing(m) || m.Sweeping? || m.Restoring?
  }

  /** The handle h is being closed: it is still there, or only the callback queue is left to clear. */
  ghost predicate IsClosingOf(s: State, h: Addr) {
    IsEnding(s.main) && (if IsClosing(s.main) then s.main.handle == h else h !in s.handles)
  }

  function Phase(m: Main): nat {
    if IsClosing(m) then 3 else if m.Sweeping? then 2 else if m.Restoring? then 1 else 0
  }

  /** Connections to go, or queries. */
  function Left(s: State): nat {
    match s.main
    case Stopping(h, i) => if h in s.handles && i <= |s.handles[h].conns| then |s.handles[h].conns| - i else 0
    case Joining(h, i) => if h in s.handles && i <= |s.handles[h].conns| then |s.handles[h].conns| - i else 0
    case Draining(h, i) => if h in s.handles && i <= |s.handles[h].conns| then |s.handles[h].conns| - i else 0
    case Sweeping(_, _) => |s.callbacks|
    case Restoring(kept) => |kept|
    case _ => 0
  }

  function Stage(s: State): nat {
    match s.main
    case Stopping(_, _) => 5
    case Joining(h, i) =>
      if !HasConn(s, h, i) then 0
      else (match ConnAt(s, h, i).worker case Executing(_) => 4 case Executed(_) => 3 case Idle => 2 case Exited => 1)
    case _ => 0
  }

  function Waiting(s: State): nat {
    match s.main
    case Draining(h, i) => if HasConn(s, h, i) then |ConnAt(s, h, i).queue| else 0
    case _ => 0
  }

  predicate Less(s': State, s: State) {
    || Phase(s'.main) < Phase(s.main)
    || (Phase(s'.main) == Phase(s.main) && Left(s') < Left(s))
    || (Phase(s'.main) == Phase(s.main) && Left(s') == Left(s) && Stage(s') < Stage(s))
    || (Phase(s'.main) == Phase(s.main) && Left(s') == Left(s) && Stage(s') == Stage(s) && Waiting(s') < Waiting(s))
  }

  lemma StopGoesOn(s: State, h: Addr, i: nat)
    requires HandleInv(s) && s.main == Stopping(h, i) && !NextStop(s, h, i).fault
    ensures IsClosingOf(NextStop(s, h, i), h) && Less(NextStop(s, h, i), s)
  {
  }

  lemma JoinGoesOn(s: State, h: Addr, i: nat)
    requires HandleInv(s) && WorkerStopped(s) && s.main == Joining(h, i) && !s.fault && !s.log.stray
    ensures var t := ClosingStep(s);
            Enabled(s, t) && (!Next(s, t).fault ==> IsClosingOf(Next(s, t), h) && Less(Next(s, t), s))
  {
    match ConnAt(s, h, i).worker
    case Executing(_) => ExecuteGoesOn(s, h, i);
    case Executed(_) => DeliverGoesOn(s, h, i);
    case _ =>
  }

  lemma ExecuteGoesOn(s: State, h: Addr, i: nat)
    requires HandleInv(s) && s.main == Joining(h, i) && HasConn(s, h, i) && ConnAt(s, h, i).worker.Executing?
    ensures var s' := NextExecute(s, h, i, Done); !s'.fault ==> IsClosingOf(s', h) && Less(s', s)
  {
    hide Finished;
  }

  lemma DeliverGoesOn(s: State, h: Addr, i: nat)
    requires HandleInv(s) && s.main == Joining(h, i) && HasConn(s, h, i) && ConnAt(s, h, i).worker.Executed?
    ensures var s' := NextDeliver(s, h, i); !s'.fault ==> IsClosingOf(s', h) && Less(s', s)
  {
  }

  /** The worker that `mysql_close` waits for has been told to stop. */
  predicate WorkerStopped(s: State) {
    s.main.Joining? && HasConn(s, s.main.handle, s.main.conn) ==> !ConnAt(s, s.main.handle, s.main.conn).running
  }

  lemma StoppedStep(s: State, t: Step)
    requires HandleInv(s) && WorkerStopped(s) && Enabled(s, t)
    ensures WorkerStopped(Next(s, t))
  {
    assert s.tick.Taken? ==> s.main.Free?;
    hide HandleInv;
    if t.Stop? {
      StopStopped(s, s.main.handle, s.main.conn);
    } else if t.Take? || t.Execute? || t.Deliver? || t.Exit? {
      WorkerKeepsStopped(s, t);
    } else {
      NotJoining(s, t);
    }
  }

  lemma StopStopped(s: State, h: Addr, i: nat)
    ensures WorkerStopped(NextStop(s, h, i)) || NextStop(s, h, i) == Fault(s)
  {
  }

  lemma WorkerKeepsStopped(s: State, t: Step)
    requires WorkerStopped(s) && Enabled(s, t) && (t.Take? || t.Execute? || t.Deliver? || t.Exit?)
    ensures WorkerStopped(Next(s, t))
  {
    hide Finished;
  }

  lemma NotJoining(s: State, t: Step)
    requires Enabled(s, t) && !t.Stop? && !t.Take? && !t.Execute? && !t.Deliver? && !t.Exit?
    requires s.tick.Taken? ==> s.main.Free?
    ensures !Next(s, t).main.Joining?
  {
    hide NewQuery, NowApplied, NowStray;
  }

  lemma {:induction false} StoppedAlways(steps: seq<Step>)
    ensures WorkerStopped(After(steps))
  {
    if steps != [] {
      var init := steps[..|steps| - 1];
      StoppedAlways(init);
      HandlesAlways(init);
      hide HandleInv, WorkerStopped, Enabled, Next;
      if Enabled(After(init), steps[|steps| - 1]) {
        StoppedStep(After(init), steps[|steps| - 1]);
      }
    }
  }

  lemma DrainGoesOn(s: State, h: Addr, i: nat)
    requires HandleInv(s) && s.main == Draining(h, i) && !NextDrain(s, h, i).fault
    ensures IsClosingOf(NextDrain(s, h, i), h) && Less(NextDrain(s, h, i), s)
  {
  }

  lemma SweepGoesOn(s: State, h: Addr)
    requires s.main.Sweeping? && h !in s.handles && !NextSweep(s, s.main.handle, s.main.kept).fault
    ensures var s' := NextSweep(s, s.main.handle, s.main.kept); IsClosingOf(s', h) && Less(s', s)
  {
  }

  lemma RestoreGoesOn(s: State, h: Addr)
    requires s.main.Restoring? && h !in s.handles
    ensures var s' := NextRestore(s, s.main.kept);
            h !in s'.handles && Less(s', s) && (s'.main.Free? || IsClosingOf(s', h))
  {
  }

  lemma ClosingGoesOn(s: State, h: Addr)
    requires HandleInv(s) && WorkerStopped(s) && IsClosingOf(s, h) && !s.fault && !s.log.stray
    ensures Enabled(s, ClosingStep(s))
    ensures var s' := Next(s, ClosingStep(s));
            !s'.fault ==> Less(s', s) && if s'.main.Free? then h !in s'.handles else IsClosingOf(s', h)
  {
    hide HandleInv, WorkerStopped, NextStop, NextDrain, NextSweep, NextRestore, NextExecute, NextDeliver, Less;
    match s.main
    case Stopping(_, i) =>
      if !NextStop(s, h, i).fault {
        StopGoesOn(s, h, i);
      }
    case Joining(_, i) => JoinGoesOn(s, h, i);
    case Draining(_, i) =>
      if !NextDrain(s, h, i).fault {
        DrainGoesOn(s, h, i);
      }
    case Sweeping(_, kept) =>
      if !NextSweep(s, s.main.handle, kept).fault {
        SweepGoesOn(s, h);
      }
    case _ => RestoreGoesOn(s, h);
  }

  /** The steps of closing touch no variables. */
  lemma ClosingTame(s: State)
    requires IsEnding(s.main) && Enabled(s, ClosingStep(s))
    ensures Next(s, ClosingStep(s)).log.stray == s.log.stray
  {
    hide Next, Enabled;
    Memory.TameStays(s, ClosingStep(s));
  }

  /** `mysql_close` from any state in which scripts run: with the steps taken here, the workers' among them, it returns
      to the script, and the handle is gone. No query of it is left, except one whose public function is running, or one
      that `ClearByHandle` could not put back. */
  method CloseHandle(history: seq<Step>, h: Addr) returns (steps: seq<Step>)
    requires var s := After(history); ScriptRuns(s) && h in s.lives.handles && !s.log.stray
    ensures var s' := After(history + steps);
            && s'.main.Free? && h !in s'.handles && h !in s'.lives.handles && !s'.log.stray
            && forall q :: q in s'.queries && q !in s'.lost && !(s'.tick.Running? && s'.tick.query == q) ==>
                 s'.queries[q].handle != h
  {
    hide After, Next, Enabled, HandleInv, WorkerStopped, IsClosingOf, Less, IsEnding;
    Places.NoFault(history);
    CloseBegins(After(history), h);
    AfterMore(history, Close(h));
    steps := [Close(h)];
    var s := Next(After(history), Close(h));
    while !s.main.Free?
      invariant s == After(history + steps) && !s.log.stray
      invariant if s.main.Free? then h !in s.handles else IsClosingOf(s, h)
      decreases Phase(s.main), Left(s), Stage(s), Waiting(s)
    {
      var run, t := history + steps, ClosingStep(s);
      HandlesAlways(run);
      StoppedAlways(run);
      Places.NoFault(run);
      ClosingGoesOn(s, h);
      AfterMore(run, t);
      Places.NoFault(run + [t]);
      EndingOf(s, h);
      ClosingTame(s);
      assert run + [t] == history + (steps + [t]);
      LessMeans(Next(s, t), s);
      steps, s := steps + [t], Next(s, t);
    }
    HandlesAlways(history + steps);
    ClosedHandles(history + steps, h);
  }

  lemma CloseBegins(s: State, h: Addr)
    requires ScriptRuns(s) && h in s.lives.handles && !s.fault && !s.log.stray
    ensures Enabled(s, Close(h)) && IsClosingOf(Next(s, Close(h)), h) && !Next(s, Close(h)).log.stray
  {
  }

  lemma EndingOf(s: State, h: Addr)
    requires IsClosingOf(s, h)
    ensures IsEnding(s.main)
  {
  }

  lemma LessMeans(s': State, s: State)
    ensures Less(s', s) ==>
              || Phase(s'.main) < Phase(s.main)
              || (Phase(s'.main) == Phase(s.main)
                  && (Left(s') < Left(s)
                      || (Left(s') == Left(s)
                          && (Stage(s') < Stage(s) || (Stage(s') == Stage(s) && Waiting(s') < Waiting(s))))))
  {
    hide Phase, Left, Stage, Waiting;
  }

  lemma ClosedHandles(steps: seq<Step>, h: Addr)
    requires var s := After(steps); s.main.Free? && h !in s.handles && HandleInv(s)
    ensures var s := After(steps);
            && h !in s.lives.handles
            && forall q :: q in s.queries && q !in s.lost && !(s.tick.Running? && s.tick.query == q) ==>
                 s.queries[q].handle != h
  {
    hide After;
    var s := After(steps);
    forall q | q in s.queries && q !in s.lost && !(s.tick.Running? && s.tick.query == q)
      ensures s.queries[q].handle != h
    {
      Places.QueuedHandlesOpen(steps, q);
    }
  }
}
