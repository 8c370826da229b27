/** `ProcessCallbacks` as a loop that takes the steps of the life cycle, with public functions that call natives while
    the other threads go on. It shows that the steps of the tick go on to their end: the queue is emptied, each turn
    serves the query that is first then, and without interference every waiting query is served in order. */
module LifecycleTick {
  import opened Collections
  import opened Lifecycle
  import Tokens = LifecycleTokens
  import Places = LifecyclePlaces

  /** Whether the query's public function is called. */
  predicate Calls(s: State, q: QueryId, found: QueryId -> bool)
    requires q in s.queries
  {
    !Cancelled(s, s.queries[q]) && s.queries[q].callback != "" && found(q)
  }

  /** The calls for the queries, in order. */
  function CallsOf(s: State, qs: seq<QueryId>, found: QueryId -> bool): seq<Run>
    requires forall i :: 0 <= i < |qs| ==> qs[i] in s.queries
    requires forall i :: 0 <= i < |qs| && Calls(s, qs[i], found) ==> s.queries[qs[i]].owner in s.lives.scripts
  {
    if qs == [] then []
    else
      var rest, q := qs[..|qs| - 1], qs[|qs| - 1];
      CallsOf(s, rest, found)
      + (if Calls(s, q, found) then [Run(q, s.queries[q].script, s.lives.scripts[s.queries[q].owner])] else [])
  }

  /** The results applied for the queries, in order. */
  function ApplicationsOf(s: State, qs: seq<QueryId>): seq<Applied>
    requires forall i :: 0 <= i < |qs| ==> qs[i] in s.queries
  {
    if qs == [] then [] else ApplicationsOf(s, qs[..|qs| - 1]) + ApplicationOf(s, qs[|qs| - 1])
  }

  function ApplicationOf(s: State, q: QueryId): seq<Applied>
    requires q in s.queries
  {
    if Cancelled(s, s.queries[q]) then [] else Application(s.lives, q, s.queries[q])
  }

  /** The query's result is written to the memory of a script that has ended. */
  predicate Strays(s: State, q: QueryId, fits: QueryId -> bool)
    requires q in s.queries
  {
    !Cancelled(s, s.queries[q]) && NowStray(s, q, fits(q))
  }

  /** The waiting queries exist, and a script that is to be called is loaded. */
  lemma Waiting(steps: seq<Step>, q: QueryId)
    requires q in After(steps).callbacks
    ensures q in After(steps).queries
    ensures !Cancelled(After(steps), After(steps).queries[q]) ==>
              After(steps).queries[q].owner in After(steps).lives.scripts
  {
    Places.PlacesAlways(steps);
    Tokens.TokensAlways(steps);
    hide After, Tokens.TokenInv;
    var s := After(steps);
    InQueue(s, q);
    if !Cancelled(s, s.queries[q]) {
      Places.TakenBound(s, q);
    }
  }

  lemma InQueue(s: State, q: QueryId)
    requires Places.OnePlace(s) && q in s.callbacks
    ensures q in s.queries
  {
    assert Places.Count(s, q) > 0;
    Places.Somewhere(s, q);
  }

  lemma AfterMore(steps: seq<Step>, t: Step)
    requires Enabled(After(steps), t)
    ensures After(steps + [t]) == Next(After(steps), t)
  {
    hide Enabled, Next;
    assert (steps + [t])[..|steps + [t]| - 1] == steps;
  }

  // ---------------------------------------------------------------------------
  // One turn of the loop

  /** A turn without a call, or whose public function calls no natives: the first waiting query is taken, served and
      deleted. */
  ghost predicate Served(s: State, s': State, found: QueryId -> bool)
    requires s.callbacks != []
  {
    var q := s.callbacks[0];
    && q in s.queries && (Calls(s, q, found) ==> s.queries[q].owner in s.lives.scripts)
    && s'.callbacks == s.callbacks[1..] && s'.main.Free? && s'.tick.NoTick?
    && s'.lives == s.lives && s'.queries == s.queries - {q} && !s'.log.stray
    && s'.log.applied == s.log.applied + ApplicationOf(s, q)
    && s'.log.runs == s.log.runs + (if Calls(s, q, found)
                                    then [Run(q, s.queries[q].script, s.lives.scripts[s.queries[q].owner])] else [])
  }

  /** The public function of the first waiting query has been entered: its result is applied and the call is logged. */
  ghost predicate Entered(s: State, m: State)
    requires s.callbacks != [] && s.callbacks[0] in s.queries
    requires s.queries[s.callbacks[0]].owner in s.lives.scripts
  {
    var q := s.callbacks[0];
    var x := s.queries[q];
    && m.tick.Running? && m == s.(callbacks := s.callbacks[1..], tick := Running(q, m.tick.lifetime), log := m.log)
    && x.handle in s.lives.handles && m.tick.lifetime == s.lives.handles[x.handle]
    && m.log.applied == s.log.applied + ApplicationOf(s, q) && !m.log.stray
    && m.log.runs == s.log.runs + [Run(q, x.script, s.lives.scripts[x.owner])]
  }

  /** The function of q returns: q, which nothing has deleted meanwhile, is deleted. */
  ghost predicate Returned(m: State, s': State, q: QueryId) {
    && m.tick.Running? && m.tick.query == q && m.main.Free? && !m.log.stray && q in m.queries
    && s' == m.(queries := m.queries - {q}, tick := NoTick)
  }

  /** The steps up to the call of the function, or up to the query's end if there is none. */
  function Begun(before: seq<Step>, found: QueryId -> bool, fits: QueryId -> bool): seq<Step>
    requires After(before).callbacks != []
  {
    var q := After(before).callbacks[0];
    before + [Pop, Dispatch(found(q), fits(q))]
  }

  /** One turn, from the end of one run to that of a longer one: the query that is first in the queue at its beginning
      is served. If its function is called, the steps `inside` are taken until it returns. */
  ghost predicate IsTurn(before: seq<Step>, after: seq<Step>, inside: seq<Step>, found: QueryId -> bool,
                         fits: QueryId -> bool)
  {
    var s := After(before);
    && s.callbacks != [] && s.callbacks[0] in s.queries && !Strays(s, s.callbacks[0], fits)
    && var q, mid := s.callbacks[0], Begun(before, found, fits);
       if Calls(s, q, found) then
         && s.queries[q].owner in s.lives.scripts && Entered(s, After(mid))
         && after == mid + inside + [Return] && Returned(After(mid + inside), After(after), q)
       else after == mid && Served(s, After(mid), found)
  }

  /** A turn does not come to its end: its query's result is written to the memory of a script that has ended, or the
      steps inside its function do so, or stop within a native. */
  ghost predicate Stopped(before: seq<Step>, inside: seq<Step>, found: QueryId -> bool, fits: QueryId -> bool) {
    var s := After(before);
    && s.callbacks != [] && s.callbacks[0] in s.queries
    && (Strays(s, s.callbacks[0], fits)
        || (Calls(s, s.callbacks[0], found)
            && var m := After(Begun(before, found, fits) + inside); m.log.stray || !m.main.Free?))
  }

  lemma DispatchTurn(s: State, q: QueryId, found: bool, fits: bool)
    requires s.main.Free? && s.tick == Taken(q) && q in s.queries && !NextDispatch(s, q, found, fits).fault
    ensures var s', x := NextDispatch(s, q, found, fits), s.queries[q];
            if !Cancelled(s, x) && x.callback != "" && found
            then x.owner in s.lives.scripts && x.handle in s.lives.handles
                 && s'.tick == Running(q, s.lives.handles[x.handle])
                 && s' == s.(tick := s'.tick, log := s'.log)
                 && s'.log.runs == s.log.runs + [Run(q, x.script, s.lives.scripts[x.owner])]
            else s' == s.(queries := s.queries - {q}, tick := NoTick, log := s'.log) && s'.log.runs == s.log.runs
  {
    hide NowApplied, NowStray;
  }

  lemma DispatchLogs(s: State, q: QueryId, found: bool, fits: bool)
    requires s.main.Free? && s.tick == Taken(q) && q in s.queries && !NextDispatch(s, q, found, fits).fault
    requires !s.log.stray
    ensures var s', x := NextDispatch(s, q, found, fits), s.queries[q];
            s'.log.applied == s.log.applied + ApplicationOf(s, q)
            && (s'.log.stray <==> !Cancelled(s, x) && NowStray(s, q, fits))
  {
    hide Application, NowStray;
    assert s.log.applied + [] == s.log.applied;
  }

  lemma ReturnTurn(s: State, q: QueryId, lifetime: Token)
    requires !NextReturn(s, q, lifetime).fault
    ensures NextReturn(s, q, lifetime) == s.(queries := s.queries - {q}, tick := NoTick)
  {
  }

  lemma PopTurn(s: State)
    requires s.main.Free? && s.tick.NoTick? && s.callbacks != [] && !s.fault && !s.log.stray
    ensures Enabled(s, Pop)
    ensures Next(s, Pop) == s.(callbacks := s.callbacks[1..], tick := Taken(s.callbacks[0]))
  {
  }

  /** Taking a query from the queue changes nothing that its dispatch depends on. */
  lemma PoppedSame(s: State, s1: State, q: QueryId, fits: bool)
    requires s1 == s.(callbacks := s1.callbacks, tick := s1.tick) && q in s.queries
    ensures Cancelled(s1, s1.queries[q]) == Cancelled(s, s.queries[q])
    ensures NowStray(s1, q, fits) == NowStray(s, q, fits) && ApplicationOf(s1, q) == ApplicationOf(s, q)
  {
    hide Application, AllLoaded, Written;
  }

  lemma BeginServed(s: State, s1: State, found: QueryId -> bool, fits: bool)
    requires s.callbacks != [] && s.callbacks[0] in s.queries && s.main.Free? && !s.log.stray
    requires s1 == s.(callbacks := s.callbacks[1..], tick := Taken(s.callbacks[0]))
    requires var s2 := NextDispatch(s1, s.callbacks[0], found(s.callbacks[0]), fits); !s2.fault && !s2.log.stray
    ensures var s2 := NextDispatch(s1, s.callbacks[0], found(s.callbacks[0]), fits);
            if Calls(s, s.callbacks[0], found) then
              s.queries[s.callbacks[0]].owner in s.lives.scripts && Entered(s, s2)
            else Served(s, s2, found)
  {
    hide NextDispatch, ApplicationOf, NowStray, Cancelled;
    var q := s.callbacks[0];
    PoppedSame(s, s1, q, fits);
    DispatchTurn(s1, q, found(q), fits);
    DispatchLogs(s1, q, found(q), fits);
  }

  /** The steps up to the call, from any state in which they can be taken without a fault. */
  lemma BeginSteps(s: State, found: QueryId -> bool, fits: QueryId -> bool)
    requires s.main.Free? && s.tick.NoTick? && s.callbacks != [] && s.callbacks[0] in s.queries && !s.fault
             && !s.log.stray
    ensures Enabled(s, Pop)
    ensures Enabled(Next(s, Pop), Dispatch(found(s.callbacks[0]), fits(s.callbacks[0])))
    ensures var s2 := Next(Next(s, Pop), Dispatch(found(s.callbacks[0]), fits(s.callbacks[0])));
            !s2.fault ==>
              && (s2.log.stray <==> Strays(s, s.callbacks[0], fits))
              && (!s2.log.stray ==>
                    if Calls(s, s.callbacks[0], found) then
                      s.queries[s.callbacks[0]].owner in s.lives.scripts && Entered(s, s2)
                    else Served(s, s2, found))
  {
    hide NextDispatch, ApplicationOf, NowStray, Served, Entered, Cancelled, Calls;
    var q := s.callbacks[0];
    PopTurn(s);
    var s1 := Next(s, Pop);
    var s2 := NextDispatch(s1, q, found(q), fits(q));
    if !s2.fault {
      DispatchLogs(s1, q, found(q), fits(q));
      PoppedSame(s, s1, q, fits(q));
      if !s2.log.stray {
        BeginServed(s, s1, found, fits(q));
      }
    }
  }

  /** The same over a run. */
  lemma Begin(before: seq<Step>, found: QueryId -> bool, fits: QueryId -> bool)
    requires var s := After(before);
             s.main.Free? && s.tick.NoTick? && s.callbacks != [] && !s.log.stray
    ensures var s, m := After(before), After(Begun(before, found, fits));
            && s.callbacks[0] in s.queries && (m.log.stray <==> Strays(s, s.callbacks[0], fits))
            && (!m.log.stray ==>
                  if Calls(s, s.callbacks[0], found) then
                    s.queries[s.callbacks[0]].owner in s.lives.scripts && Entered(s, m)
                  else Served(s, m, found))
  {
    var s, q := After(before), After(before).callbacks[0];
    hide After, Next, Enabled, Served, Entered, Strays, Calls;
    Waiting(before, q);
    Places.NoFault(before);
    BeginSteps(s, found, fits);
    AfterMore(before, Pop);
    AfterMore(before + [Pop], Dispatch(found(q), fits(q)));
    assert before + [Pop] + [Dispatch(found(q), fits(q))] == Begun(before, found, fits);
    Places.NoFault(Begun(before, found, fits));
  }

  /** Inside a public function, the tick stays where it is until the function returns. */
  lemma {:induction false} StaysInside(before: seq<Step>, inside: seq<Step>)
    requires After(before).tick.Running? && Return !in inside
    ensures After(before + inside).tick == After(before).tick
  {
    hide After, Next, Enabled;
    if inside == [] {
      assert before + inside == before;
    } else {
      var init, t := inside[..|inside| - 1], inside[|inside| - 1];
      StaysInside(before, init);
      Places.AfterStep(before, init, inside);
      if Enabled(After(before + init), t) {
        RunningStays(After(before + init), t);
      }
    }
  }

  lemma RunningStays(s: State, t: Step)
    requires Enabled(s, t) && s.tick.Running? && t != Return
    ensures Next(s, t).tick == s.tick
  {
    hide NewQuery, Cancelled;
  }

  /** The end of a turn whose function was called. */
  lemma End(mid: seq<Step>, inside: seq<Step>, q: QueryId)
    requires After(mid).tick.Running? && After(mid).tick.query == q && Return !in inside
    requires var m := After(mid + inside); m.main.Free? && !m.log.stray
    ensures Returned(After(mid + inside), After(mid + inside + [Return]), q)
  {
    StaysInside(mid, inside);
    var m, run := After(mid + inside), mid + inside + [Return];
    Places.NoFault(mid + inside);
    Places.NoFault(run);
    Places.PlacesAlways(mid + inside);
    hide After, NextReturn;
    RunningQuery(m, q);
    AfterMore(mid + inside, Return);
    ReturnTurn(m, q, m.tick.lifetime);
  }

  lemma RunningQuery(m: State, q: QueryId)
    requires Places.PlaceInv(m) && m.tick.Running? && m.tick.query == q
    ensures q in m.queries
  {
    assert Places.Count(m, q) > 0;
    Places.Somewhere(m, q);
  }

  method Turn(before: seq<Step>, inside: seq<Step>, found: QueryId -> bool, fits: QueryId -> bool)
    returns (after: seq<Step>, ended: bool)
    requires Return !in inside
    requires var s := After(before); s.main.Free? && s.tick.NoTick? && s.callbacks != [] && !s.log.stray
    ensures ended ==> IsTurn(before, after, inside, found, fits)
    ensures !ended ==> Stopped(before, inside, found, fits)
  {
    hide After, Served, Strays, Calls;
    var s := After(before);
    var q := s.callbacks[0];
    Begin(before, found, fits);
    after := before + [Pop, Dispatch(found(q), fits(q))];
    assert after == Begun(before, found, fits);
    var m := After(after);
    ended := !m.log.stray;
    if ended && Calls(s, q, found) {
      var mid := after + inside;
      ended := After(mid).main.Free? && !After(mid).log.stray;
      if ended {
        End(after, inside, q);
        after := mid + [Return];
      }
    }
  }

  // ---------------------------------------------------------------------------
  // The loop

  /** What goes on inside the public function of the k-th turn. */
  function Inside(inside: seq<seq<Step>>, k: nat): seq<Step> {
    if k < |inside| then inside[k] else []
  }

  /** A tick: `marks` are the runs up to the beginnings of its turns and, as the last one, up to where it stands. It has
      ended when the queue is empty. */
  ghost predicate IsTick(marks: seq<seq<Step>>, inside: seq<seq<Step>>, ended: bool, found: QueryId -> bool,
                         fits: QueryId -> bool)
  {
    && marks != []
    && (forall k :: 0 <= k < |marks| - 1 ==> IsTurn(marks[k], marks[k + 1], Inside(inside, k), found, fits))
    && var last := marks[|marks| - 1];
       if ended then After(last).callbacks == [] else Stopped(last, Inside(inside, |marks| - 1), found, fits)
  }

  /** After a turn the tick is ready for the next. */
  lemma TurnReady(before: seq<Step>, after: seq<Step>, inside: seq<Step>, found: QueryId -> bool, fits: QueryId -> bool)
    requires IsTurn(before, after, inside, found, fits)
    ensures var s' := After(after); s'.main.Free? && s'.tick.NoTick? && !s'.log.stray
    ensures inside == [] ==> Served(After(before), After(after), found)
  {
    hide After, Strays, Calls;
    var s := After(before);
    if Calls(s, s.callbacks[0], found) {
      assert Begun(before, found, fits) + [] == Begun(before, found, fits);
      if inside == [] {
        EnteredServed(s, After(Begun(before, found, fits)), After(after), found);
      }
    }
  }

  lemma EnteredServed(s: State, m: State, s': State, found: QueryId -> bool)
    requires s.callbacks != [] && s.callbacks[0] in s.queries && s.queries[s.callbacks[0]].owner in s.lives.scripts
    requires Calls(s, s.callbacks[0], found) && Entered(s, m) && Returned(m, s', s.callbacks[0])
    ensures Served(s, s', found)
  {
    hide Cancelled, ApplicationOf;
  }

  /** The tick. In the k-th turn, the steps `inside[k]` happen while the public function runs: those of the natives it
      calls, and of other threads. They may add queries, delete them, close handles and unload scripts; still each turn
      serves the query that is first when it begins, and its query is there when its function returns. Once the steps
      are used up, the loop comes to its end. */
  method ProcessCallbacks(history: seq<Step>, inside: seq<seq<Step>>, found: QueryId -> bool, fits: QueryId -> bool)
    returns (steps: seq<Step>, ended: bool, ghost marks: seq<seq<Step>>)
    requires forall k :: 0 <= k < |inside| ==> Return !in inside[k]
    requires var s := After(history); s.main.Free? && s.tick.NoTick? && !s.log.stray
    ensures IsTick(marks, inside, ended, found, fits)
    ensures marks[0] == history && steps == marks[|marks| - 1]
  {
    hide After, IsTurn, Stopped, Served;
    steps, marks := history, [history];
    var k := 0;
    while After(steps).callbacks != []
      invariant |marks| == k + 1 && marks[0] == history && steps == marks[k]
      invariant forall j :: 0 <= j < k ==> IsTurn(marks[j], marks[j + 1], Inside(inside, j), found, fits)
      invariant var s := After(steps); s.main.Free? && s.tick.NoTick? && !s.log.stray
      decreases if k < |inside| then |inside| - k else 0, |After(steps).callbacks|
    {
      var after;
      after, ended := Turn(steps, Inside(inside, k), found, fits);
      if !ended {
        return;
      }
      TurnReady(steps, after, Inside(inside, k), found, fits);
      if k >= |inside| {
        ServedShorter(After(steps), After(after), found);
      }
      marks, steps, k := marks + [after], after, k + 1;
    }
    ended := true;
  }

  // ---------------------------------------------------------------------------
  // A quiet tick

  /** What the turns so far have done to the state. */
  ghost predicate ServedAll(s: State, s': State, done: seq<QueryId>, found: QueryId -> bool) {
    && (forall i :: 0 <= i < |done| ==>
          done[i] in s.queries && (Calls(s, done[i], found) ==> s.queries[done[i]].owner in s.lives.scripts))
    && s'.main.Free? && s'.tick.NoTick? && s'.lives == s.lives
    && s.callbacks == done + s'.callbacks
    && s'.queries == s.queries - Elements(done)
    && s'.log.runs == s.log.runs + CallsOf(s, done, found) && !s'.log.stray
    && s'.log.applied == s.log.applied + ApplicationsOf(s, done)
  }

  lemma ServedMore(s: State, s1: State, s2: State, done: seq<QueryId>, found: QueryId -> bool)
    requires ServedAll(s, s1, done, found) && s1.callbacks != [] && Served(s1, s2, found)
    ensures ServedAll(s, s2, done + [s1.callbacks[0]], found)
  {
    hide Elements, Calls, CallsOf, ApplicationOf, ApplicationsOf;
    var q := s1.callbacks[0];
    ElementsMore(done, q);
    assert s.queries - Elements(done) - {q} == s.queries - (Elements(done) + {q});
    SameServed(s, s1, q, found);
    MoreCalls(s, done, q, found);
  }

  /** What is done for a query depends on it and on the lives. */
  lemma SameServed(s: State, s1: State, q: QueryId, found: QueryId -> bool)
    requires q in s.queries && q in s1.queries && s1.queries[q] == s.queries[q] && s1.lives == s.lives
    ensures Calls(s1, q, found) == Calls(s, q, found) && ApplicationOf(s1, q) == ApplicationOf(s, q)
  {
  }

  lemma MoreCalls(s: State, done: seq<QueryId>, q: QueryId, found: QueryId -> bool)
    requires q in s.queries && (Calls(s, q, found) ==> s.queries[q].owner in s.lives.scripts)
    requires forall i :: 0 <= i < |done| ==>
               done[i] in s.queries && (Calls(s, done[i], found) ==> s.queries[done[i]].owner in s.lives.scripts)
    ensures forall i :: 0 <= i < |done + [q]| ==>
              (done + [q])[i] in s.queries
              && (Calls(s, (done + [q])[i], found) ==> s.queries[(done + [q])[i]].owner in s.lives.scripts)
    ensures ApplicationsOf(s, done + [q]) == ApplicationsOf(s, done) + ApplicationOf(s, q)
    ensures CallsOf(s, done + [q], found) == CallsOf(s, done, found)
            + (if Calls(s, q, found) then [Run(q, s.queries[q].script, s.lives.scripts[s.queries[q].owner])] else [])
  {
    hide Calls, ApplicationOf;
    assert (done + [q])[..|done|] == done;
  }

  /** Whether a waiting query strays does not depend on the turns before its own. */
  lemma StraysSame(s: State, s1: State, done: seq<QueryId>, found: QueryId -> bool, fits: QueryId -> bool)
    requires ServedAll(s, s1, done, found) && s1.callbacks != [] && s1.callbacks[0] in s1.queries
    ensures s1.callbacks[0] in s.queries
    ensures Strays(s1, s1.callbacks[0], fits) == Strays(s, s1.callbacks[0], fits)
  {
    hide CallsOf, Calls, ApplicationsOf, Loaded, Written;
  }

  /** The tick by itself, when no function calls natives and no other thread moves: it ends exactly if no waiting
      query's result is written to the memory of a script that has ended. Then every waiting query has been served in
      order: exactly those that are not cancelled and have a public function were called, their results are applied,
      and all of them, and no others, are deleted. */
  lemma QuietTick(marks: seq<seq<Step>>, ended: bool, found: QueryId -> bool, fits: QueryId -> bool)
    requires IsTick(marks, [], ended, found, fits)
    requires var s := After(marks[0]); s.main.Free? && s.tick.NoTick? && !s.log.stray
    ensures var s, s' := After(marks[0]), After(marks[|marks| - 1]);
            && (ended <==> forall q :: q in s.callbacks && q in s.queries ==> !Strays(s, q, fits))
            && (ended ==> ServedAll(s, s', s.callbacks, found) && s'.callbacks == [])
  {
    hide After, CallsOf, Calls, ApplicationsOf, ApplicationOf, Strays, Served;
    var n := |marks| - 1;
    var s, s' := After(marks[0]), After(marks[n]);
    var done := QuietTurns(marks, n, found, fits);
    if ended {
      assert done + [] == done;
    } else {
      QuietStop(marks[n], found, fits);
      StraysSame(s, s', done, found, fits);
      assert s'.callbacks[0] in s.callbacks;
    }
  }

  /** Without steps inside, only a result can stop a turn. */
  lemma QuietStop(before: seq<Step>, found: QueryId -> bool, fits: QueryId -> bool)
    requires Stopped(before, [], found, fits)
    requires var s := After(before); s.main.Free? && s.tick.NoTick? && !s.log.stray
    ensures var s := After(before); s.callbacks != [] && s.callbacks[0] in s.queries && Strays(s, s.callbacks[0], fits)
  {
    Begin(before, found, fits);
    hide After, Served, Strays, Calls;
    assert Begun(before, found, fits) + [] == Begun(before, found, fits);
  }

  /** The first n turns. */
  lemma {:induction false} QuietTurns(marks: seq<seq<Step>>, n: nat, found: QueryId -> bool, fits: QueryId -> bool)
    returns (done: seq<QueryId>)
    requires n < |marks|
    requires forall k :: 0 <= k < n ==> IsTurn(marks[k], marks[k + 1], [], found, fits)
    requires var s := After(marks[0]); s.main.Free? && s.tick.NoTick? && !s.log.stray
    ensures ServedAll(After(marks[0]), After(marks[n]), done, found)
    ensures forall q :: q in done && q in After(marks[0]).queries ==> !Strays(After(marks[0]), q, fits)
    decreases n
  {
    var s := After(marks[0]);
    hide After, Served, CallsOf, Calls, ApplicationsOf, ApplicationOf, Strays;
    if n == 0 {
      NoneServed(s, found);
      done := [];
    } else {
      var rest := QuietTurns(marks, n - 1, found, fits);
      var s1, s2 := After(marks[n - 1]), After(marks[n]);
      assert IsTurn(marks[n - 1], marks[n - 1 + 1], [], found, fits);
      TurnReady(marks[n - 1], marks[n], [], found, fits);
      StraysSame(s, s1, rest, found, fits);
      ServedMore(s, s1, s2, rest, found);
      done := rest + [s1.callbacks[0]];
    }
  }

  lemma ServedShorter(s: State, s': State, found: QueryId -> bool)
    requires s.callbacks != [] && Served(s, s', found)
    ensures |s'.callbacks| < |s.callbacks| && !s'.log.stray
  {
  }

  lemma NoneServed(s: State, found: QueryId -> bool)
    requires s.main.Free? && s.tick.NoTick? && !s.log.stray
    ensures ServedAll(s, s, [], found)
  {
    assert s.log.applied == s.log.applied + ApplicationsOf(s, []);
    assert s.callbacks == [] + s.callbacks;
    assert s.queries == s.queries - Elements([]);
    assert s.log.runs == s.log.runs + CallsOf(s, [], found);
  }
}
