/** How queries end: in every run, a query is deleted for one of six reasons, and its callback runs at most once. */
module LifecycleEndings {
  import opened Lifecycle
  import opened LifecycleHandles
  import Tokens = LifecycleTokens
  import Places = LifecyclePlaces

  /** The step ends the query q: its connection refused it, the callback queue had no room for it, its handle was
      closed, it was cancelled or had no public function to call, or its public function has run. */
  ghost predicate Ending(s: State, t: Step, q: QueryId)
    requires Enabled(s, t) && q in s.queries
  {
    var x := s.queries[q];
    match t
    case Push =>
      s.main == Created(q)
      && (HasConn(s, x.handle, x.conn) ==> |ConnAt(s, x.handle, x.conn).queue| >= 16876)
    case Deliver(h, i) => ConnAt(s, h, i).worker.query == q && |s.callbacks| >= 32648
    case Drain => x.handle == s.main.handle && x.handle !in s.lives.handles
    case Sweep => x.handle == s.main.handle && x.handle !in s.handles
    case Dispatch(found, fits) => s.tick.query == q && (Cancelled(s, x) || x.callback == "" || !found)
    case Return => s.tick.query == q && s.log.runs != [] && s.log.runs[|s.log.runs| - 1].query == q
    case _ => false
  }

  // ---------------------------------------------------------------------------
  // Callbacks that ran

  predicate IsRunning(s: State, q: QueryId) {
    s.tick.Running? && s.tick.query == q
  }

  /** The last callback of the log is the one that is running, if one is; the others' queries are gone. */
  ghost predicate RunsInv(s: State) {
    && (s.tick.Running? ==> s.log.runs != [] && s.log.runs[|s.log.runs| - 1].query == s.tick.query)
    && (forall i :: 0 <= i < |s.log.runs| ==>
          s.log.runs[i].query < s.born && (s.log.runs[i].query in s.queries ==> IsRunning(s, s.log.runs[i].query)))
    && (forall i, j :: 0 <= i < j < |s.log.runs| ==> s.log.runs[i].query != s.log.runs[j].query)
  }

  /** Without a dispatch, no callback starts; one may end, and its query with it. */
  lemma NoRun(s: State, t: Step)
    requires Enabled(s, t) && !t.Dispatch?
    ensures var s' := Next(s, t);
            && s'.log.runs == s.log.runs && s.born <= s'.born
            && (forall q :: q in s'.queries ==> q in s.queries || q >= s.born)
            && (s'.tick.Running? ==> s'.tick == s.tick)
            && (s.tick.Running? && s'.tick != s.tick ==> s.tick.query !in s'.queries || s'.fault)
  {
    hide Next, Enabled;
    Places.StepBirths(s, t);
    SameRuns(s, t);
    TickStays(s, t);
  }

  lemma SameRuns(s: State, t: Step)
    requires Enabled(s, t) && !t.Dispatch?
    ensures Next(s, t).log.runs == s.log.runs
  {
    if Tokens.IsTame(t) {
      Tokens.TameStep(s, t);
      hide Next, Enabled;
    }
  }

  lemma TickStays(s: State, t: Step)
    requires Enabled(s, t) && !t.Dispatch?
    ensures var s' := Next(s, t);
            && (s'.tick.Running? ==> s'.tick == s.tick)
            && (s.tick.Running? && s'.tick != s.tick ==> s.tick.query !in s'.queries || s'.fault)
  {
  }

  lemma StillRuns(s: State, t: Step)
    requires RunsInv(s) && Enabled(s, t) && !t.Dispatch? && !Next(s, t).fault
    ensures RunsInv(Next(s, t))
  {
    NoRun(s, t);
    hide Next, Enabled;
  }

  lemma DispatchRuns(s: State, q: QueryId, found: bool, fits: bool)
    requires RunsInv(s) && Places.PlaceInv(s) && HandleInv(s) && s.tick == Taken(q)
    ensures RunsInv(NextDispatch(s, q, found, fits))
  {
    Places.TakenQuery(s, q);
    BornQuery(s, q);
    hide Places.PlaceInv, HandleInv, NextDispatch;
    DispatchFrame(s, q, found, fits);
    var runs, runs' := s.log.runs, NextDispatch(s, q, found, fits).log.runs;
    OneMoreRun(runs, runs');
  }

  lemma OneMoreRun(runs: seq<Run>, runs': seq<Run>)
    requires runs' == runs || (|runs'| == |runs| + 1 && runs'[..|runs|] == runs)
    ensures forall i :: 0 <= i < |runs| ==> runs'[i] == runs[i]
  {
  }

  lemma BornQuery(s: State, q: QueryId)
    requires Places.PlaceInv(s) && q in s.queries
    ensures q < s.born
  {
    hide Places.OnePlace, Places.AllHomed;
    assert Places.Labelled(s, q, s.queries[q].handle, s.queries[q].conn);
  }

  lemma {:induction false} RunsAlways(steps: seq<Step>)
    ensures RunsInv(After(steps))
  {
    if steps != [] {
      var init, t := steps[..|steps| - 1], steps[|steps| - 1];
      RunsAlways(init);
      Places.PlacesAlways(init);
      Places.NoFault(steps);
      HandlesAlways(init);
      hide RunsInv, Places.PlaceInv, HandleInv, NextDispatch;
      if Enabled(After(init), t) {
        if t.Dispatch? {
          DispatchRuns(After(init), After(init).tick.query, t.found, t.fits);
        } else {
          StillRuns(After(init), t);
        }
      }
    }
  }

  /** No query's callback runs twice. */
  lemma CallbackOnce(steps: seq<Step>, i: nat, j: nat)
    requires i < j < |After(steps).log.runs|
    ensures After(steps).log.runs[i].query != After(steps).log.runs[j].query
  {
    RunsAlways(steps);
  }

  // ---------------------------------------------------------------------------
  // Endings

  lemma PushEnding(s: State, q: QueryId, x: QueryId)
    requires Places.PlaceInv(s) && Enabled(s, Push) && s.main == Created(x)
    requires q in s.queries && q !in NextPush(s, x).queries
    ensures Ending(s, Push, q)
  {
    Places.CreatedQuery(s, x);
    hide Places.PlaceInv;
  }

  lemma DeliverEnding(s: State, h: Addr, i: nat, q: QueryId)
    requires Enabled(s, Deliver(h, i)) && q in s.queries && q !in NextDeliver(s, h, i).queries
    ensures Ending(s, Deliver(h, i), q)
  {
  }

  lemma DrainEnding(s: State, h: Addr, i: nat, q: QueryId)
    requires Places.PlaceInv(s) && HandleInv(s) && Enabled(s, Drain) && s.main == Draining(h, i)
    requires q in s.queries && q !in NextDrain(s, h, i).queries
    ensures Ending(s, Drain, q)
  {
    var c := ConnAt(s, h, i);
    assert Places.ConnLabelled(s, c, h, i) && Places.Labelled(s, q, s.queries[q].handle, s.queries[q].conn);
    hide Places.PlaceInv;
    assert c.queue != [] && c.queue[0] == q;
    assert Places.Labelled(s, q, h, i);
  }

  lemma SweepEnding(s: State, h: Addr, kept: seq<QueryId>, q: QueryId)
    requires HandleInv(s) && Enabled(s, Sweep) && s.main == Sweeping(h, kept)
    requires q in s.queries && q !in NextSweep(s, h, kept).queries
    ensures Ending(s, Sweep, q)
  {
  }

  lemma DispatchEnding(s: State, x: QueryId, found: bool, fits: bool, q: QueryId)
    requires Enabled(s, Dispatch(found, fits)) && s.tick == Taken(x)
    requires q in s.queries && q !in NextDispatch(s, x, found, fits).queries
    ensures Ending(s, Dispatch(found, fits), q)
  {
    hide NowApplied;
  }

  lemma ReturnEnding(s: State, x: QueryId, lifetime: Token, q: QueryId)
    requires RunsInv(s) && Enabled(s, Return) && s.tick == Running(x, lifetime)
    requires q in s.queries && q !in NextReturn(s, x, lifetime).queries
    ensures Ending(s, Return, q)
  {
  }

  predicate Ends(t: Step) {
    t.Push? || t.Deliver? || t.Drain? || t.Sweep? || t.Dispatch? || t.Return?
  }

  lemma OthersKeep(s: State, t: Step, q: QueryId)
    requires Places.PlaceInv(s) && Enabled(s, t) && !Ends(t) && q in s.queries
    ensures q in Next(s, t).queries
  {
    if t.Execute? {
      Places.BusyQuery(s, t.handle, t.conn);
    }
    hide Places.PlaceInv;
  }

  /** Whatever step deletes a query has one of the six reasons. */
  lemma StepEnding(s: State, t: Step, q: QueryId)
    requires Places.PlaceInv(s) && HandleInv(s) && RunsInv(s) && Enabled(s, t)
    requires q in s.queries && q !in Next(s, t).queries
    ensures Ending(s, t, q)
  {
    hide Places.PlaceInv, HandleInv, RunsInv, Ending;
    hide NextPush, NextDeliver, NextDrain, NextSweep, NextDispatch, NextReturn;
    if !Ends(t) {
      OthersKeep(s, t, q);
    } else {
      match t
      case Push => PushEnding(s, q, s.main.query);
      case Deliver(h, i) => DeliverEnding(s, h, i, q);
      case Drain => DrainEnding(s, s.main.handle, s.main.conn, q);
      case Sweep => SweepEnding(s, s.main.handle, s.main.kept, q);
      case Dispatch(found, fits) => DispatchEnding(s, s.tick.query, found, fits, q);
      case Return => ReturnEnding(s, s.tick.query, s.tick.lifetime, q);
    }
  }

  /** And each of these reasons deletes it. */
  lemma EndingDeletes(s: State, t: Step, q: QueryId)
    requires Places.PlaceInv(s) && Enabled(s, t) && !Next(s, t).fault && q in s.queries && Ending(s, t, q)
    requires t.Push? || t.Deliver? || t.Dispatch? || t.Return?
    requires t.Deliver? ==> ConnAt(s, t.handle, t.conn).worker == Executed(q)
    ensures q !in Next(s, t).queries
  {
    hide Places.PlaceInv, NowApplied, NowStray;
  }

  lemma StepLanes(s: State, t: Step, q: QueryId)
    requires Enabled(s, t) && q in Next(s, t).log.lanes && q !in s.log.lanes
    ensures q in Next(s, t).queries
  {
    if Tokens.IsTame(t) {
      Tokens.TameStep(s, t);
    } else if t.Dispatch? {
      DispatchLanes(s, s.tick.query, t.found, t.fits);
    }
    hide NextDispatch;
  }

  lemma DispatchLanes(s: State, q: QueryId, found: bool, fits: bool)
    ensures NextDispatch(s, q, found, fits).log.lanes == s.log.lanes
  {
    hide NowApplied;
  }

  lemma SomeStep(steps: seq<Step>, q: QueryId)
    requires q in After(steps).log.lanes
    ensures steps != []
  {
    hide Next, Enabled;
  }

  /** A query that is gone was deleted by one step of the run, for one of the six reasons. */
  lemma {:induction false} WhyGone(steps: seq<Step>, q: QueryId) returns (n: nat)
    requires q in After(steps).log.lanes && q !in After(steps).queries
    ensures n < |steps|
    ensures var s := After(steps[..n]);
            Enabled(s, steps[n]) && q in s.queries && Ending(s, steps[n], q)
  {
    hide After, Next, Enabled, Places.PlaceInv, HandleInv, RunsInv, Ending;
    SomeStep(steps, q);
    var init, t := steps[..|steps| - 1], steps[|steps| - 1];
    var s := After(init);
    Places.AfterStep([], init, steps);
    assert [] + init == init && [] + steps == steps;
    if q in s.log.lanes && q !in s.queries {
      n := WhyGone(init, q);
      assert steps[..n] == init[..n];
    } else {
      n := |init|;
      assert steps[..n] == init;
      Places.PlacesAlways(init);
      HandlesAlways(init);
      RunsAlways(init);
      if q !in s.queries {
        StepLanes(s, t, q);
      } else {
        StepEnding(s, t, q);
      }
    }
  }
}
