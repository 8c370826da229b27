/** What becomes of a query: over every run, how often it is executed, and whether the tick serves it or drops it, in
    terms of the steps of the run. */
module LifecycleService {
  import opened Wrappers
  import opened Lifecycle
  import opened LifecycleHandles
  import Tokens = LifecycleTokens
  import Places = LifecyclePlaces
  import Memory = LifecycleMemory

  // ---------------------------------------------------------------------------
  // Steps that happen

  /** The n-th step of the run is possible when its turn comes. */
  predicate Happens(steps: seq<Step>, n: nat)
    requires n < |steps|
  {
    Enabled(After(steps[..n]), steps[n])
  }

  /** The n-th step executes the query q. */
  predicate Executes(steps: seq<Step>, n: nat, q: QueryId)
    requires n < |steps|
  {
    Happens(steps, n) && ExecutesNow(After(steps[..n]), steps[n], q)
  }

  predicate ExecutesNow(s: State, t: Step, q: QueryId) {
    t.Execute? && HasConn(s, t.handle, t.conn) && ConnAt(s, t.handle, t.conn).worker == Executing(q)
  }

  lemma AfterNext(steps: seq<Step>, n: nat)
    requires n < |steps|
    ensures After(steps[..n + 1])
            == if Happens(steps, n) then Next(After(steps[..n]), steps[n]) else After(steps[..n])
  {
    hide Next, Enabled;
    assert steps[..n + 1][..n] == steps[..n];
  }

  // ---------------------------------------------------------------------------
  // Before and after the execution

  /** The query is being issued, or queued or executing on its connection. */
  predicate AtWork(s: State, q: QueryId) {
    s.main == Created(q) || (q in s.log.lanes && OnConn(s, s.log.lanes[q], q))
  }

  predicate OnConn(s: State, l: Lane, q: QueryId) {
    HasConn(s, l.handle, l.conn) && InWork(ConnAt(s, l.handle, l.conn), q)
  }

  predicate InWork(c: Conn, q: QueryId) {
    q in c.queue || c.worker == Executing(q)
  }

  lemma SameHandles(s: State, s': State, q: QueryId)
    requires s'.handles == s.handles && q in s.log.lanes && q in s'.log.lanes && s'.log.lanes[q] == s.log.lanes[q]
    requires (s'.main == Created(q)) == (s.main == Created(q))
    ensures AtWork(s', q) == AtWork(s, q)
  {
  }

  /** One connection changes, and with it only what is not about q. */
  lemma SameConn(s: State, h: Addr, i: nat, c: Conn, q: QueryId)
    requires HasConn(s, h, i) && InWork(c, q) == InWork(ConnAt(s, h, i), q)
    ensures AtWork(SetConn(s, h, i, c), q) == AtWork(s, q)
  {
  }

  predicate IsQuiet(t: Step) {
    t.LoadScript? || t.UnloadScript? || t.CreateOrm? || t.ChangeOrm? || t.UseOrm? || t.DestroyOrm? || t.Close?
    || t.Join? || t.Sweep? || t.Restore? || t.Pop? || t.Return?
  }

  /** Steps away from the connections. */
  lemma QuietFrame(s: State, t: Step, q: QueryId)
    requires Enabled(s, t) && IsQuiet(t) && q in s.queries && q in Next(s, t).queries
    ensures var s' := Next(s, t);
            && s'.handles == s.handles && s'.log.lanes == s.log.lanes && s'.queries[q] == s.queries[q]
            && !s.main.Created? && !s'.main.Created?
  {
  }

  /** The query goes on as it is. */
  predicate Still(s: State, s': State, q: QueryId)
    requires q in s.queries
  {
    q in s'.queries && s'.queries[q] == s.queries[q] && AtWork(s', q) == AtWork(s, q)
  }

  lemma QuietStill(s: State, t: Step, q: QueryId)
    requires Places.PlaceInv(s) && Enabled(s, t) && IsQuiet(t) && q in s.queries && q in Next(s, t).queries
    ensures Still(s, Next(s, t), q)
  {
    QueryLane(s, q);
    QuietFrame(s, t, q);
    hide Next, Enabled, Places.PlaceInv;
    SameHandles(s, Next(s, t), q);
  }

  lemma QueryLane(s: State, q: QueryId)
    requires Places.PlaceInv(s) && q in s.queries
    ensures q in s.log.lanes && q < s.born && s.log.lanes[q] == Lane(s.queries[q].handle, s.queries[q].conn)
  {
    hide Places.OnePlace, Places.AllHomed;
    assert Places.Labelled(s, q, s.queries[q].handle, s.queries[q].conn);
  }

  lemma CountStill(s: State, h: Addr, q: QueryId)
    requires s.main == Pushed(h) && q in s.queries && !NextCount(s, h).fault
    ensures Still(s, NextCount(s, h), q)
  {
  }

  lemma IssueStill(s: State, h: Addr, conn: nat, amx: Addr, binding: Option<Binding>, callback: string, q: QueryId)
    requires Places.PlaceInv(s) && s.main.Free? && h in s.lives.handles && q in s.queries
    ensures Still(s, NextIssue(s, h, conn, amx, binding, callback), q)
  {
    QueryLane(s, q);
    hide Places.PlaceInv, NewQuery;
    SameHandles(s, NextIssue(s, h, conn, amx, binding, callback), q);
  }

  lemma TouchStill(s: State, used: set<BoundVariable>, q: QueryId)
    requires q in s.queries
    ensures Still(s, Touch(s, used), q)
  {
    hide AllLoaded;
  }

  lemma IssueOrmStill(s: State, o: Addr, kind: OrmQuery, amx: Addr, callback: string, q: QueryId)
    requires Places.PlaceInv(s) && s.main.Free? && o in s.lives.orms && q in s.queries
    requires !NextIssueOrm(s, o, kind, amx, callback).fault
    ensures Still(s, NextIssueOrm(s, o, kind, amx, callback), q)
  {
    var orm := s.lives.orms[o];
    var s1 := Touch(s, Needed(orm.layout, kind));
    TouchStill(s, Needed(orm.layout, kind), q);
    Places.LogKeeps(s, s1.log);
    hide Places.PlaceInv, NextIssue, AtWork;
    IssueStill(s1, orm.handle, 0, amx, Some(Binding(o, orm.lifetime, orm.layout, kind)), callback, q);
  }

  lemma ConnectStill(s: State, h: Addr, pool: nat, q: QueryId)
    requires h !in s.handles && q in s.queries
    ensures Still(s, NextConnect(s, h, pool), q)
  {
  }

  /** An issued query goes to the end of its connection's queue. */
  lemma PushStill(s: State, x: QueryId, q: QueryId)
    requires Places.PlaceInv(s) && s.main == Created(x) && q in s.queries
    requires !NextPush(s, x).fault && q in NextPush(s, x).queries
    ensures Still(s, NextPush(s, x), q)
  {
    QueryLane(s, q);
    QueryLane(s, x);
    hide Places.PlaceInv, InWork, AtWork;
    var h, i := s.queries[x].handle, s.queries[x].conn;
    if HasConn(s, h, i) && |ConnAt(s, h, i).queue| < QUEUE_CAPACITY {
      PushedAtWork(s, x, q);
    } else {
      assert q != x;
      SameHandles(s, NextPush(s, x), q);
    }
  }

  lemma PushedAtWork(s: State, x: QueryId, q: QueryId)
    requires s.main == Created(x) && x in s.queries && q in s.log.lanes
    requires x in s.log.lanes && s.log.lanes[x] == Lane(s.queries[x].handle, s.queries[x].conn)
    requires HasConn(s, s.queries[x].handle, s.queries[x].conn)
    requires |ConnAt(s, s.queries[x].handle, s.queries[x].conn).queue| < QUEUE_CAPACITY
    ensures AtWork(NextPush(s, x), q) == AtWork(s, q)
  {
    hide InWork;
    PushWork(ConnAt(s, s.queries[x].handle, s.queries[x].conn), x, q);
  }

  lemma PushWork(c: Conn, x: QueryId, q: QueryId)
    ensures InWork(c.(queue := c.queue + [x]), q) == (InWork(c, q) || q == x)
  {
  }

  lemma TakeStill(s: State, h: Addr, i: nat, q: QueryId)
    requires Enabled(s, Take(h, i)) && q in s.queries
    ensures Still(s, NextTake(s, h, i), q)
  {
    var c := ConnAt(s, h, i);
    TakeWork(c, q);
    hide InWork, AtWork;
    SameConn(s, h, i, c.(queue := c.queue[1..], worker := Executing(c.queue[0])), q);
  }

  lemma TakeWork(c: Conn, q: QueryId)
    requires c.queue != [] && c.worker.Idle?
    ensures InWork(c.(queue := c.queue[1..], worker := Executing(c.queue[0])), q) == InWork(c, q)
  {
    assert c.queue == [c.queue[0]] + c.queue[1..];
  }

  lemma ExecuteStill(s: State, h: Addr, i: nat, outcome: Outcome, q: QueryId)
    requires HasConn(s, h, i) && ConnAt(s, h, i).worker.Executing? && ConnAt(s, h, i).worker.query != q
    requires q in s.queries && !NextExecute(s, h, i, outcome).fault
    ensures Still(s, NextExecute(s, h, i, outcome), q)
  {
    hide Finished;
  }

  lemma DeliverStill(s: State, h: Addr, i: nat, q: QueryId)
    requires HasConn(s, h, i) && ConnAt(s, h, i).worker.Executed? && !NextDeliver(s, h, i).fault
    requires q in s.queries && q in NextDeliver(s, h, i).queries
    ensures Still(s, NextDeliver(s, h, i), q)
  {
  }

  lemma ExitStill(s: State, h: Addr, i: nat, q: QueryId)
    requires Enabled(s, Exit(h, i)) && q in s.queries
    ensures Still(s, Next(s, Exit(h, i)), q)
  {
  }

  lemma StopStill(s: State, h: Addr, i: nat, q: QueryId)
    requires HandleInv(s) && s.main == Stopping(h, i) && q in s.queries && !NextStop(s, h, i).fault
    ensures Still(s, NextStop(s, h, i), q)
  {
    if HasConn(s, h, i) {
      hide HandleInv;
    } else {
      assert forall j :: 0 <= j < |s.handles[h].conns| ==> Gone(s.handles[h].conns[j]);
    }
  }

  lemma DrainStill(s: State, h: Addr, i: nat, q: QueryId)
    requires s.main == Draining(h, i) && !NextDrain(s, h, i).fault && q in s.queries && q in NextDrain(s, h, i).queries
    ensures Still(s, NextDrain(s, h, i), q)
  {
    var c := ConnAt(s, h, i);
    if c.queue != [] {
      assert c.queue == [c.queue[0]] + c.queue[1..] && q != c.queue[0];
    }
  }

  lemma DispatchStill(s: State, x: QueryId, found: bool, fits: bool, q: QueryId)
    requires Places.PlaceInv(s) && HandleInv(s) && s.tick == Taken(x) && q in s.queries
    requires !NextDispatch(s, x, found, fits).fault && q in NextDispatch(s, x, found, fits).queries
    ensures Still(s, NextDispatch(s, x, found, fits), q)
  {
    QueryLane(s, q);
    DispatchFrame(s, x, found, fits);
    hide NextDispatch, Places.PlaceInv, HandleInv;
    SameHandles(s, NextDispatch(s, x, found, fits), q);
  }

  /** Every step but its own execution, and its end, leaves a query as it is. */
  lemma StepStill(s: State, t: Step, q: QueryId)
    requires Places.PlaceInv(s) && HandleInv(s) && Enabled(s, t) && !Next(s, t).fault
    requires q in s.queries && q in Next(s, t).queries && !ExecutesNow(s, t, q)
    ensures Still(s, Next(s, t), q)
  {
    hide Places.PlaceInv, HandleInv, Still, NextConnect, NextIssue, NextIssueOrm, NextPush, NextCount, NextTake,
      NextExecute, NextDeliver, NextStop, NextDrain, NextDispatch;
    if IsQuiet(t) {
      QuietStill(s, t, q);
    } else {
      match t
      case Connect(h, pool) => ConnectStill(s, h, pool, q);
      case Issue(h, conn, amx, callback) => IssueStill(s, h, conn, amx, None, callback, q);
      case IssueOrm(o, kind, amx, callback) => IssueOrmStill(s, o, kind, amx, callback, q);
      case Push => PushStill(s, s.main.query, q);
      case Count => CountStill(s, s.main.handle, q);
      case Take(h, i) => TakeStill(s, h, i, q);
      case Execute(h, i, outcome) => ExecuteStill(s, h, i, outcome, q);
      case Deliver(h, i) => DeliverStill(s, h, i, q);
      case Exit(h, i) => ExitStill(s, h, i, q);
      case Stop => StopStill(s, s.main.handle, s.main.conn, q);
      case Drain => DrainStill(s, s.main.handle, s.main.conn, q);
      case Dispatch(found, fits) => DispatchStill(s, s.tick.query, found, fits, q);
    }
  }

  /** The execution of the query: it was at work and no longer is, and an error or a missing result changes its call. */
  lemma StepExecutes(s: State, t: Step, q: QueryId)
    requires Places.PlaceInv(s) && Enabled(s, t) && !Next(s, t).fault && ExecutesNow(s, t, q)
    ensures q in s.queries && AtWork(s, q) && q in Next(s, t).queries && !AtWork(Next(s, t), q)
    ensures var x, x' := s.queries[q], Next(s, t).queries[q];
            && x'.owner == x.owner && x'.script == x.script && x'.binding == x.binding && x'.handle == x.handle
            && (t.outcome == Done ==> x'.callback == x.callback && x'.target == x.target)
            && (t.outcome == Failed ==> x'.callback == "OnQueryError" && x'.target == None)
            && (t.outcome == Unstored ==> x'.callback == "" && x'.target == x.target)
  {
    var h, i := t.handle, t.conn;
    Places.BusyQuery(s, h, i);
    QueryLane(s, q);
    NotQueued(s, h, i, q);
    hide Places.PlaceInv;
  }

  /** What a worker executes is not in its queue. */
  lemma NotQueued(s: State, h: Addr, i: nat, q: QueryId)
    requires Places.PlaceInv(s) && HasConn(s, h, i) && ConnAt(s, h, i).worker == Executing(q)
    ensures q !in ConnAt(s, h, i).queue && s.main != Created(q)
  {
    Places.LabelledAt(s, h, i);
    assert Places.Count(s, q) == Places.One(q in s.queries);
    assert Places.InLane(s, q) == Places.InConn(ConnAt(s, h, i), q);
  }

  // ---------------------------------------------------------------------------
  // Scripts and ORMs

  /** The script is unloaded, or loaded again. */
  predicate Reloads(t: Step, amx: Addr) {
    t == LoadScript(amx) || t == UnloadScript(amx)
  }

  /** The ORM at that address, of that owner and handle, is changed or destroyed. */
  predicate EndsOrm(t: Step, o: Addr, owner: Addr, h: Addr) {
    (t.ChangeOrm? && t.orm == o) || t == DestroyOrm(o) || t == UnloadScript(owner) || t == Close(h)
  }

  lemma ScriptStep(s: State, t: Step, amx: Addr)
    requires Enabled(s, t) && !Next(s, t).fault
    ensures amx in Next(s, t).lives.scripts <==>
              t == LoadScript(amx) || (amx in s.lives.scripts && t != UnloadScript(amx))
  {
    if Tokens.IsTame(t) {
      Tokens.TameStep(s, t);
      hide Next, Enabled;
    } else {
      hide NowApplied, NowStray, NewQuery;
    }
  }

  /** A script is loaded exactly if it has been loaded and not unloaded since. */
  ghost predicate LoadedBy(steps: seq<Step>, amx: Addr) {
    exists i :: 0 <= i < |steps| && LoadsForGood(steps, i, amx)
  }

  ghost predicate LoadsForGood(steps: seq<Step>, i: nat, amx: Addr)
    requires i < |steps|
  {
    && steps[i] == LoadScript(amx) && Happens(steps, i)
    && forall j :: i < j < |steps| && Happens(steps, j) ==> steps[j] != UnloadScript(amx)
  }

  lemma ShorterHappens(steps: seq<Step>, init: seq<Step>, n: nat)
    requires n < |init| <= |steps| && init == steps[..|init|]
    ensures Happens(steps, n) == Happens(init, n) && steps[n] == init[n]
  {
    hide After, Enabled;
    assert steps[..n] == init[..n];
  }

  lemma {:induction false} LoadedExactly(steps: seq<Step>, amx: Addr)
    ensures amx in After(steps).lives.scripts <==> LoadedBy(steps, amx)
  {
    if steps == [] {
      hide Next, Enabled;
    } else {
      var n := |steps| - 1;
      var init, t := steps[..n], steps[n];
      LoadedExactly(init, amx);
      AfterNext(steps, n);
      assert steps[..n + 1] == steps;
      Places.NoFault(steps);
      hide After, Next, Enabled;
      forall i: nat | i < n ensures Happens(steps, i) == Happens(init, i) && steps[i] == init[i] {
        ShorterHappens(steps, init, i);
      }
      hide Happens;
      assert Happens(steps, n) <==> Enabled(After(init), t) by {
        LastHappens(steps, init);
      }
      if Happens(steps, n) {
        ScriptStep(After(init), t, amx);
      }
      LoadedMore(steps, init, amx);
    }
  }

  lemma LastHappens(steps: seq<Step>, init: seq<Step>)
    requires steps != [] && init == steps[..|steps| - 1]
    ensures Happens(steps, |init|) == Enabled(After(init), steps[|init|])
  {
    hide After, Enabled;
  }

  lemma LoadedMore(steps: seq<Step>, init: seq<Step>, amx: Addr)
    requires steps != [] && init == steps[..|steps| - 1]
    requires forall i :: 0 <= i < |init| ==> Happens(steps, i) == Happens(init, i) && steps[i] == init[i]
    ensures var n := |init|;
            LoadedBy(steps, amx) <==>
              (Happens(steps, n) && steps[n] == LoadScript(amx))
              || (LoadedBy(init, amx) && !(Happens(steps, n) && steps[n] == UnloadScript(amx)))
  {
    hide Happens;
    var n := |init|;
    if LoadedBy(steps, amx) {
      var i :| 0 <= i < |steps| && LoadsForGood(steps, i, amx);
      assert i < n ==> LoadsForGood(init, i, amx);
    }
    if Happens(steps, n) && steps[n] == LoadScript(amx) {
      assert LoadsForGood(steps, n, amx);
    }
    if LoadedBy(init, amx) && !(Happens(steps, n) && steps[n] == UnloadScript(amx)) {
      var i :| 0 <= i < |init| && LoadsForGood(init, i, amx);
      assert LoadsForGood(steps, i, amx);
    }
  }

  // ---------------------------------------------------------------------------
  // Lifetimes

  /** The control block goes on, with its holder, unless `killed`. */
  predicate GoesOn(l: Lives, l': Lives, token: Token, killed: bool) {
    && l.next <= l'.next && (token in l'.alive <==> token in l.alive && !killed)
    && (token in l'.alive ==> l'.alive[token] == l.alive[token])
  }

  predicate IsScript(l: Lives, token: Token, amx: Addr) {
    token in l.alive && l.alive[token] == OfScript(amx)
  }

  predicate IsOrm(l: Lives, token: Token, o: Addr) {
    token in l.alive && l.alive[token] == OfOrm(o)
  }

  predicate IsOrmWith(l: Lives, token: Token, owner: Addr) {
    token in l.alive && l.alive[token].OfOrm? && l.alive[token].orm in l.orms
    && l.orms[l.alive[token].orm].owner == owner
  }

  predicate IsOrmOn(l: Lives, token: Token, h: Addr) {
    token in l.alive && l.alive[token].OfOrm? && l.alive[token].orm in l.orms
    && l.orms[l.alive[token].orm].handle == h
  }

  lemma LoadToken(l: Lives, amx: Addr, token: Token)
    requires Tokens.TokensHeld(l) && token < l.next
    ensures GoesOn(l, Load(l, amx), token, IsScript(l, token, amx))
  {
    if amx in l.scripts {
      assert Tokens.Alive(l, l.scripts[amx], OfScript(amx));
    }
    assert token in l.alive ==> Tokens.HeldBy(l, l.alive[token], token);
  }

  lemma UnloadToken(l: Lives, amx: Addr, token: Token)
    requires Tokens.TokensHeld(l) && token < l.next
    ensures GoesOn(l, Unload(l, amx), token, IsScript(l, token, amx) || IsOrmWith(l, token, amx))
  {
    if amx in l.scripts {
      assert Tokens.Alive(l, l.scripts[amx], OfScript(amx));
    }
    assert token in l.alive ==> Tokens.HeldBy(l, l.alive[token], token);
    var gone := set o | o in l.orms && l.orms[o].owner == amx;
    forall o | o in gone ensures Tokens.Alive(l, l.orms[o].lifetime, OfOrm(o)) {
    }
  }

  lemma RetireToken(l: Lives, h: Addr, token: Token)
    requires Tokens.TokensHeld(l) && token < l.next && h in l.handles
    ensures GoesOn(l, Retire(l, h), token,
                   (token in l.alive && l.alive[token] == OfHandle(h)) || IsOrmOn(l, token, h))
  {
    assert Tokens.Alive(l, l.handles[h], OfHandle(h));
    assert token in l.alive ==> Tokens.HeldBy(l, l.alive[token], token);
    var gone := set o | o in l.orms && l.orms[o].handle == h;
    forall o | o in gone ensures Tokens.Alive(l, l.orms[o].lifetime, OfOrm(o)) {
    }
  }

  lemma ChangeToken(l: Lives, o: Addr, layout: Layout, token: Token)
    requires Tokens.TokensHeld(l) && token < l.next && o in l.orms
    ensures GoesOn(l, Change(l, o, layout), token, IsOrm(l, token, o))
    ensures GoesOn(l, Destroy(l, o), token, IsOrm(l, token, o))
  {
    assert Tokens.Alive(l, l.orms[o].lifetime, OfOrm(o));
    assert token in l.alive ==> Tokens.HeldBy(l, l.alive[token], token);
  }

  lemma NewToken(l: Lives, h: Addr, o: Addr, amx: Addr, token: Token)
    requires token < l.next
    ensures GoesOn(l, NewHandle(l, h), token, false) && GoesOn(l, NewOrm(l, o, h, amx, NO_VARIABLES), token, false)
  {
  }

  /** What a step does to the control block `token`. */
  predicate Kills(l: Lives, t: Step, token: Token) {
    match t
    case LoadScript(amx) => IsScript(l, token, amx)
    case UnloadScript(amx) => IsScript(l, token, amx) || IsOrmWith(l, token, amx)
    case ChangeOrm(o, _) => IsOrm(l, token, o)
    case DestroyOrm(o) => IsOrm(l, token, o)
    case Close(h) => (token in l.alive && l.alive[token] == OfHandle(h)) || IsOrmOn(l, token, h)
    case _ => false
  }

  lemma StepToken(s: State, t: Step, token: Token)
    requires Tokens.TokenInv(s) && Enabled(s, t) && token < s.lives.next
    ensures GoesOn(s.lives, Next(s, t).lives, token, Kills(s.lives, t, token))
  {
    hide Tokens.TokensHeld, Tokens.OrmsHaveHandles, Tokens.QueriesBound, Tokens.LogTrue;
    hide IsScript, IsOrm, IsOrmWith, IsOrmOn, Load, Unload, Change, Destroy, Retire, NewHandle, NewOrm;
    var l := s.lives;
    match t
    case LoadScript(amx) => LoadToken(l, amx, token);
    case UnloadScript(amx) => UnloadToken(l, amx, token);
    case Connect(h, pool) => NewToken(l, h, 0, 0, token);
    case CreateOrm(o, h, amx) => NewToken(l, h, o, amx, token);
    case ChangeOrm(o, layout) => ChangeToken(l, o, layout, token);
    case DestroyOrm(o) => ChangeToken(l, o, NO_VARIABLES, token);
    case Close(h) => RetireToken(l, h, token);
    case _ => Memory.SameLives(s, t);
  }

  lemma ScriptToken(s: State, t: Step, token: Token, amx: Addr)
    requires Tokens.TokenInv(s) && Enabled(s, t) && token < s.lives.next
    requires token in s.lives.alive ==> s.lives.alive[token] == OfScript(amx)
    ensures GoesOn(s.lives, Next(s, t).lives, token, Reloads(t, amx))
  {
    hide Next, Enabled, Tokens.TokenInv;
    StepToken(s, t, token);
  }

  /** An ORM's control block lives as long as the ORM stays as it is. */
  lemma OrmToken(s: State, t: Step, o: Addr, orm: Orm)
    requires Tokens.TokenInv(s) && Enabled(s, t) && orm.lifetime < s.lives.next
    requires orm.lifetime in s.lives.alive ==>
               s.lives.alive[orm.lifetime] == OfOrm(o) && o in s.lives.orms && s.lives.orms[o] == orm
    ensures GoesOn(s.lives, Next(s, t).lives, orm.lifetime, EndsOrm(t, o, orm.owner, orm.handle))
  {
    hide Next, Enabled, Tokens.TokenInv;
    StepToken(s, t, orm.lifetime);
  }

  lemma OrmSame(s: State, t: Step, o: Addr, orm: Orm)
    requires Enabled(s, t) && o in s.lives.orms && s.lives.orms[o] == orm
    requires !EndsOrm(t, o, orm.owner, orm.handle)
    ensures o in Next(s, t).lives.orms && Next(s, t).lives.orms[o] == orm
  {
    if Tokens.IsTame(t) || t.Issue? || t.IssueOrm? || t.Dispatch? {
      hide Next, Enabled;
      Memory.SameLives(s, t);
    }
  }

  // ---------------------------------------------------------------------------
  // From a query's issue on

  /** The n-th step issues the query q, which belongs to the script. */
  predicate Issues(steps: seq<Step>, n: nat, q: QueryId, amx: Addr)
    requires n < |steps|
  {
    && Happens(steps, n) && After(steps[..n]).born == q
    && (steps[n].Issue? || steps[n].IssueOrm?) && steps[n].amx == amx
  }

  /** Between the steps n and k, the script is unloaded or loaded again. */
  ghost predicate Reloaded(steps: seq<Step>, n: nat, k: nat, amx: Addr)
    requires k <= |steps|
  {
    exists j :: n < j < k && ReloadsAt(steps, j, amx)
  }

  predicate ReloadsAt(steps: seq<Step>, j: nat, amx: Addr)
    requires j < |steps|
  {
    Happens(steps, j) && Reloads(steps[j], amx)
  }

  /** Between the steps n and k, the ORM that was at the address at step n is changed or destroyed. */
  ghost predicate OrmEnded(steps: seq<Step>, n: nat, k: nat, o: Addr, orm: Orm)
    requires k <= |steps|
  {
    exists j :: n < j < k && EndsOrmAt(steps, j, o, orm)
  }

  predicate EndsOrmAt(steps: seq<Step>, j: nat, o: Addr, orm: Orm)
    requires j < |steps|
  {
    Happens(steps, j) && EndsOrm(steps[j], o, orm.owner, orm.handle)
  }

  /** The query just issued. */
  lemma Issued(s: State, t: Step, q: QueryId)
    requires Enabled(s, t) && !Next(s, t).fault && (t.Issue? || t.IssueOrm?) && s.born == q
    ensures var s' := Next(s, t);
            && s'.lives == s.lives && s'.born == q + 1 && s'.main == Created(q) && q in s'.queries
            && var x := s'.queries[q];
               && x.owner == t.amx && x.callback == t.callback
               && x.script == (if t.amx in s.lives.scripts then Some(s.lives.scripts[t.amx]) else None)
               && (t.Issue? ==> x.binding == None && x.target == None)
               && (t.IssueOrm? ==>
                     var orm := s.lives.orms[t.orm];
                     x.target == Some(t.orm) && x.binding == Some(Binding(t.orm, orm.lifetime, orm.layout, t.kind)))
  {
    hide AllLoaded, Needed;
  }

  /** The query as its execution leaves it. */
  predicate ExecutedTo(x: Query, x': Query, outcome: Option<Outcome>) {
    && x'.owner == x.owner && x'.script == x.script && x'.binding == x.binding
    && (outcome == None || outcome == Some(Done) ==> x'.callback == x.callback && x'.target == x.target)
    && (outcome == Some(Failed) ==> x'.callback == "OnQueryError" && x'.target == None)
    && (outcome == Some(Unstored) ==> x'.callback == "" && x'.target == x.target)
  }

  function OutcomeOf(steps: seq<Step>, e: Option<nat>): Option<Outcome>
    requires e.Some? ==> e.value < |steps| && steps[e.value].Execute?
  {
    if e.None? then None else Some(steps[e.value].outcome)
  }

  /** What has happened to the query q between its issue and the k-th step: e executes it, if anything does. */
  ghost predicate Lived(steps: seq<Step>, n: nat, k: nat, q: QueryId, e: Option<nat>)
    requires n < k <= |steps|
  {
    && (e.Some? ==> n < e.value < k && Executes(steps, e.value, q))
    && (forall j :: n < j < k && Executes(steps, j, q) ==> e == Some(j))
    && var s0, s := After(steps[..n + 1]), After(steps[..k]);
       q in s0.queries && q < s.born
       && (q in s.queries ==>
             && (AtWork(s, q) <==> e.None?) && ExecutedTo(s0.queries[q], s.queries[q], OutcomeOf(steps, e)))
  }

  lemma {:induction false} Life(steps: seq<Step>, n: nat, k: nat, q: QueryId, amx: Addr) returns (e: Option<nat>)
    requires n < k <= |steps| && Issues(steps, n, q, amx)
    ensures Lived(steps, n, k, q, e)
    decreases k
  {
    hide Issues, Lived;
    if k == n + 1 {
      e := None;
      LifeBegins(steps, n, q, amx);
    } else {
      e := Life(steps, n, k - 1, q, amx);
      e := LifeGoesOn(steps, n, k - 1, q, e);
    }
  }

  lemma LifeBegins(steps: seq<Step>, n: nat, q: QueryId, amx: Addr)
    requires n < |steps| && Issues(steps, n, q, amx)
    ensures Lived(steps, n, n + 1, q, None)
  {
    hide After, Next, Enabled, Executes;
    AfterNext(steps, n);
    Places.NoFault(steps[..n + 1]);
    Issued(After(steps[..n]), steps[n], q);
  }

  lemma LifeGoesOn(steps: seq<Step>, n: nat, k: nat, q: QueryId, e: Option<nat>) returns (e': Option<nat>)
    requires n < k < |steps| && Lived(steps, n, k, q, e)
    ensures Lived(steps, n, k + 1, q, e')
  {
    hide After, AtWork;
    e' := e;
    AfterNext(steps, k);
    if Executes(steps, k, q) {
      e' := Some(k);
      ExecutesAt(steps, k, q);
      hide Next, Enabled, ExecutesNow, Executes;
    } else {
      hide Next, Enabled, ExecutesNow, Executes;
      if Happens(steps, k) {
        BirthsAt(steps, k, q);
        if q in After(steps[..k + 1]).queries {
          StillAt(steps, k, q);
        }
      }
    }
  }

  lemma ExecutesAt(steps: seq<Step>, k: nat, q: QueryId)
    requires k < |steps| && Executes(steps, k, q)
    ensures steps[k].Execute?
    ensures var s, s' := After(steps[..k]), After(steps[..k + 1]);
            && q in s.queries && AtWork(s, q) && q in s'.queries && !AtWork(s', q) && (q < s.born ==> q < s'.born)
            && ExecutedTo(s.queries[q], s'.queries[q], Some(steps[k].outcome))
  {
    var s, t := After(steps[..k]), steps[k];
    AfterNext(steps, k);
    Places.PlacesAlways(steps[..k]);
    Places.NoFault(steps[..k + 1]);
    IsExecute(s, t, q);
    hide After, Next, Enabled, Places.PlaceInv, AtWork, ExecutesNow;
    StepExecutes(s, t, q);
    if q < s.born {
      Births(s, t, q);
    }
  }

  lemma BirthsAt(steps: seq<Step>, k: nat, q: QueryId)
    requires k < |steps| && Happens(steps, k) && q < After(steps[..k]).born
    ensures var s, s' := After(steps[..k]), After(steps[..k + 1]);
            q < s'.born && (q in s'.queries ==> q in s.queries)
  {
    hide After, Next, Enabled;
    AfterNext(steps, k);
    Births(After(steps[..k]), steps[k], q);
  }

  lemma StillAt(steps: seq<Step>, k: nat, q: QueryId)
    requires k < |steps| && Happens(steps, k) && !Executes(steps, k, q)
    requires q in After(steps[..k]).queries && q in After(steps[..k + 1]).queries
    ensures Still(After(steps[..k]), After(steps[..k + 1]), q)
  {
    AfterNext(steps, k);
    Places.PlacesAlways(steps[..k]);
    HandlesAlways(steps[..k]);
    Places.NoFault(steps[..k + 1]);
    hide After, Next, Enabled, Places.PlaceInv, HandleInv, Still, ExecutesNow;
    StepStill(After(steps[..k]), steps[k], q);
  }

  lemma IsExecute(s: State, t: Step, q: QueryId)
    requires ExecutesNow(s, t, q)
    ensures t.Execute?
  {
  }

  lemma Births(s: State, t: Step, q: QueryId)
    requires Enabled(s, t) && q < s.born
    ensures q < Next(s, t).born && (q in Next(s, t).queries ==> q in s.queries)
  {
    hide Next, Enabled;
    Places.StepBirths(s, t);
  }

  // ---------------------------------------------------------------------------
  // The lifetimes since the issue

  /** The script's control block of the issue lives exactly as long as the script is not unloaded or loaded again. */
  lemma {:induction false} ScriptSince(steps: seq<Step>, n: nat, k: nat, q: QueryId, amx: Addr)
    requires n < k <= |steps| && Issues(steps, n, q, amx) && amx in After(steps[..n]).lives.scripts
    ensures var token, l := After(steps[..n]).lives.scripts[amx], After(steps[..k]).lives;
            && token < l.next && (token in l.alive <==> !Reloaded(steps, n, k, amx))
            && (token in l.alive ==> l.alive[token] == OfScript(amx))
    decreases k
  {
    var token := After(steps[..n]).lives.scripts[amx];
    hide After, Issues, ReloadsAt, Reloaded;
    ReloadedNext(steps, n, k - 1, amx);
    if k == n + 1 {
      IssueLives(steps, n, q, amx);
      ScriptAlive(steps[..n], amx);
    } else {
      ScriptSince(steps, n, k - 1, q, amx);
      ScriptTokenAt(steps, k - 1, token, amx);
    }
  }

  lemma ReloadedNext(steps: seq<Step>, n: nat, k: nat, amx: Addr)
    requires n <= k < |steps|
    ensures Reloaded(steps, n, k + 1, amx) <==> n < k && (Reloaded(steps, n, k, amx) || ReloadsAt(steps, k, amx))
  {
    hide ReloadsAt;
  }

  lemma IssueLives(steps: seq<Step>, n: nat, q: QueryId, amx: Addr)
    requires n < |steps| && Issues(steps, n, q, amx)
    ensures After(steps[..n + 1]).lives == After(steps[..n]).lives
  {
    hide After, Next, Enabled;
    AfterNext(steps, n);
    Places.NoFault(steps[..n + 1]);
    Issued(After(steps[..n]), steps[n], q);
  }

  lemma ScriptAlive(steps: seq<Step>, amx: Addr)
    requires amx in After(steps).lives.scripts
    ensures var l := After(steps).lives; l.scripts[amx] < l.next && IsScript(l, l.scripts[amx], amx)
  {
    Tokens.TokensAlways(steps);
    hide After;
    var l := After(steps).lives;
    assert Tokens.Alive(l, l.scripts[amx], OfScript(amx));
  }

  lemma ScriptTokenAt(steps: seq<Step>, k: nat, token: Token, amx: Addr)
    requires k < |steps| && token < After(steps[..k]).lives.next
    requires var l := After(steps[..k]).lives; token in l.alive ==> l.alive[token] == OfScript(amx)
    ensures GoesOn(After(steps[..k]).lives, After(steps[..k + 1]).lives, token, ReloadsAt(steps, k, amx))
  {
    Tokens.TokensAlways(steps[..k]);
    AfterNext(steps, k);
    hide After, Next, Enabled, Tokens.TokenInv, Reloads;
    if Happens(steps, k) {
      ScriptToken(After(steps[..k]), steps[k], token, amx);
    }
  }

  /** The same for an ORM that is there at the issue. */
  lemma {:induction false} OrmSince(steps: seq<Step>, n: nat, k: nat, q: QueryId, amx: Addr, o: Addr, orm: Orm)
    requires n < k <= |steps| && Issues(steps, n, q, amx)
    requires o in After(steps[..n]).lives.orms && After(steps[..n]).lives.orms[o] == orm
    ensures var l := After(steps[..k]).lives;
            && orm.lifetime < l.next && (orm.lifetime in l.alive <==> !OrmEnded(steps, n, k, o, orm))
            && (orm.lifetime in l.alive ==>
                  l.alive[orm.lifetime] == OfOrm(o) && o in l.orms && l.orms[o] == orm)
    decreases k
  {
    hide After, Issues, EndsOrmAt, OrmEnded;
    OrmEndedNext(steps, n, k - 1, o, orm);
    if k == n + 1 {
      IssueLives(steps, n, q, amx);
      OrmAlive(steps[..n], o);
    } else {
      OrmSince(steps, n, k - 1, q, amx, o, orm);
      OrmTokenAt(steps, k - 1, o, orm);
    }
  }

  lemma OrmEndedNext(steps: seq<Step>, n: nat, k: nat, o: Addr, orm: Orm)
    requires n <= k < |steps|
    ensures OrmEnded(steps, n, k + 1, o, orm) <==>
              n < k && (OrmEnded(steps, n, k, o, orm) || EndsOrmAt(steps, k, o, orm))
  {
    hide EndsOrmAt;
  }

  lemma OrmAlive(steps: seq<Step>, o: Addr)
    requires o in After(steps).lives.orms
    ensures var l := After(steps).lives; l.orms[o].lifetime < l.next && IsOrm(l, l.orms[o].lifetime, o)
  {
    Tokens.TokensAlways(steps);
    hide After;
    var l := After(steps).lives;
    assert Tokens.Alive(l, l.orms[o].lifetime, OfOrm(o));
  }

  lemma OrmTokenAt(steps: seq<Step>, k: nat, o: Addr, orm: Orm)
    requires k < |steps| && orm.lifetime < After(steps[..k]).lives.next
    requires var l := After(steps[..k]).lives;
             orm.lifetime in l.alive ==> l.alive[orm.lifetime] == OfOrm(o) && o in l.orms && l.orms[o] == orm
    ensures var l, l' := After(steps[..k]).lives, After(steps[..k + 1]).lives;
            && GoesOn(l, l', orm.lifetime, EndsOrmAt(steps, k, o, orm))
            && (orm.lifetime in l'.alive ==> o in l'.orms && l'.orms[o] == orm)
  {
    Tokens.TokensAlways(steps[..k]);
    AfterNext(steps, k);
    hide After, Next, Enabled, Tokens.TokenInv, EndsOrm;
    if Happens(steps, k) {
      var s := After(steps[..k]);
      OrmToken(s, steps[k], o, orm);
      if orm.lifetime in Next(s, steps[k]).lives.alive {
        OrmSame(s, steps[k], o, orm);
      }
    }
  }

  // ---------------------------------------------------------------------------
  // Served or dropped

  /** The script was not loaded when the query was issued, or has been unloaded or loaded again since; or the query's
      ORM has been changed or destroyed since, by itself, or with its owner or its handle. */
  ghost predicate Outdated(steps: seq<Step>, n: nat, m: nat)
    requires n < m <= |steps| && (steps[n].Issue? || steps[n].IssueOrm?)
    requires steps[n].IssueOrm? ==> steps[n].orm in After(steps[..n]).lives.orms
  {
    || !LoadedBy(steps[..n], steps[n].amx)
    || Reloaded(steps, n, m, steps[n].amx)
    || (steps[n].IssueOrm? && OrmEnded(steps, n, m, steps[n].orm, After(steps[..n]).lives.orms[steps[n].orm]))
  }

  /** What the tick does to a query it has taken. */
  lemma DispatchOf(s: State, q: QueryId, found: bool, fits: bool)
    requires s.tick == Taken(q) && q in s.queries && !NextDispatch(s, q, found, fits).fault
    ensures var s', x := NextDispatch(s, q, found, fits), s.queries[q];
            && (Cancelled(s, x) ==> s' == s.(queries := s.queries - {q}, tick := NoTick))
            && (!Cancelled(s, x) ==>
                  && s'.log.applied == s.log.applied + Application(s.lives, q, x)
                  && if x.callback != "" && found then
                       && x.owner in s.lives.scripts && x.handle in s.lives.handles && s'.queries == s.queries
                       && s'.tick == Running(q, s.lives.handles[x.handle])
                       && s'.log.runs == s.log.runs + [Run(q, x.script, s.lives.scripts[x.owner])]
                     else
                       s'.queries == s.queries - {q} && s'.tick == NoTick && s'.log.runs == s.log.runs)
  {
    hide Application, NowStray;
  }

  /** Whether the query is cancelled, in terms of the steps since its issue. */
  lemma CancelledExactly(steps: seq<Step>, n: nat, m: nat, q: QueryId, amx: Addr, e: Option<nat>)
    requires n < m <= |steps| && Issues(steps, n, q, amx) && Lived(steps, n, m, q, e) && q in After(steps[..m]).queries
    ensures var s := After(steps[..m]); Cancelled(s, s.queries[q]) <==> Outdated(steps, n, m)
  {
    var s0, t := After(steps[..n]), steps[n];
    LoadedExactly(steps[..n], amx);
    QueryOfIssue(steps, n, q, amx);
    hide After, LoadedBy, Reloaded, OrmEnded, Issues;
    if amx in s0.lives.scripts {
      ScriptSince(steps, n, m, q, amx);
    }
    if t.IssueOrm? {
      OrmSince(steps, n, m, q, amx, t.orm, s0.lives.orms[t.orm]);
    }
  }

  lemma QueryOfIssue(steps: seq<Step>, n: nat, q: QueryId, amx: Addr)
    requires n < |steps| && Issues(steps, n, q, amx)
    ensures var s0, t := After(steps[..n]), steps[n];
            && q in After(steps[..n + 1]).queries && t.amx == amx && (t.IssueOrm? ==> t.orm in s0.lives.orms)
            && (t.Issue? || t.IssueOrm?)
            && var x := After(steps[..n + 1]).queries[q];
               && x.owner == amx && x.callback == t.callback
               && x.script == (if amx in s0.lives.scripts then Some(s0.lives.scripts[amx]) else None)
               && (t.Issue? ==> x.binding == None && x.target == None)
               && (t.IssueOrm? ==>
                     var orm := s0.lives.orms[t.orm];
                     x.target == Some(t.orm) && x.binding == Some(Binding(t.orm, orm.lifetime, orm.layout, t.kind)))
  {
    AfterNext(steps, n);
    Places.NoFault(steps[..n + 1]);
    Issued(After(steps[..n]), steps[n], q);
    hide After, Next;
  }

  lemma TakenIsDone(s: State, q: QueryId)
    requires Places.PlaceInv(s) && s.tick == Taken(q)
    ensures q in s.queries && !AtWork(s, q)
  {
    assert Places.Count(s, q) == Places.One(q in s.queries);
  }

  /** Over every run: a query that the tick takes has been executed exactly once, by the step e. If it is outdated, it
      is dropped, and nothing else happens. Otherwise its result is applied, if it is a SELECT or INSERT of an ORM that
      did not fail, and its public function runs, in the generation of the script that issued it, if it has one that is
      found: the one named by the native, OnQueryError after an error, and none if the result could not be stored. */
  lemma ServedOrDropped(steps: seq<Step>, n: nat, m: nat, q: QueryId, amx: Addr) returns (e: nat)
    requires n < m < |steps| && Issues(steps, n, q, amx)
    requires Happens(steps, m) && steps[m].Dispatch? && After(steps[..m]).tick == Taken(q)
    ensures n < e < m && Executes(steps, e, q) && steps[e].Execute?
    ensures forall j :: n < j < m && Executes(steps, j, q) ==> j == e
    ensures var t, s0, s, s' := steps[n], After(steps[..n]), After(steps[..m]), After(steps[..m + 1]);
            var outcome := steps[e].outcome;
            && (t.Issue? || t.IssueOrm?) && (t.IssueOrm? ==> t.orm in s0.lives.orms)
            && (Outdated(steps, n, m) ==> s' == s.(queries := s.queries - {q}, tick := NoTick))
            && (!Outdated(steps, n, m) ==>
                  var callback := if outcome == Done then t.callback
                                  else if outcome == Failed then "OnQueryError" else "";
                  && amx in s0.lives.scripts
                  && s'.log.applied == s.log.applied
                       + (if t.IssueOrm? && (t.kind == Select || t.kind == Insert) && outcome != Failed
                          then [Applied(q, s0.lives.orms[t.orm].layout, s0.lives.orms[t.orm].layout)] else [])
                  && if callback != "" && steps[m].found then
                       && s'.tick.Running? && s'.tick.query == q && s'.queries == s.queries
                       && s'.log.runs == s.log.runs
                            + [Run(q, Some(s0.lives.scripts[amx]), s0.lives.scripts[amx])]
                     else
                       s'.tick == NoTick && s'.queries == s.queries - {q} && s'.log.runs == s.log.runs)
  {
    var life := Life(steps, n, m, q, amx);
    Places.PlacesAlways(steps[..m]);
    TakenIsDone(After(steps[..m]), q);
    CancelledExactly(steps, n, m, q, amx, life);
    QueryOfIssue(steps, n, q, amx);
    hide After, Issues, AtWork, Places.PlaceInv, Outdated, Executes;
    e := life.value;
    IsExecuteAt(steps, e, q);
    DispatchAt(steps, m, q);
    var s := After(steps[..m]);
    if !Cancelled(s, s.queries[q]) {
      LiveAt(steps, n, m, q, amx);
    }
  }

  lemma IsExecuteAt(steps: seq<Step>, e: nat, q: QueryId)
    requires e < |steps| && Executes(steps, e, q)
    ensures steps[e].Execute?
  {
  }

  lemma DispatchAt(steps: seq<Step>, m: nat, q: QueryId)
    requires m < |steps| && Happens(steps, m) && steps[m].Dispatch?
    requires After(steps[..m]).tick == Taken(q) && q in After(steps[..m]).queries
    ensures var s, s', found := After(steps[..m]), After(steps[..m + 1]), steps[m].found;
            var x := s.queries[q];
            && (Cancelled(s, x) ==> s' == s.(queries := s.queries - {q}, tick := NoTick))
            && (!Cancelled(s, x) ==>
                  && s'.log.applied == s.log.applied + Application(s.lives, q, x)
                  && if x.callback != "" && found then
                       && x.owner in s.lives.scripts && x.handle in s.lives.handles && s'.queries == s.queries
                       && s'.tick == Running(q, s.lives.handles[x.handle])
                       && s'.log.runs == s.log.runs + [Run(q, x.script, s.lives.scripts[x.owner])]
                     else
                       s'.queries == s.queries - {q} && s'.tick == NoTick && s'.log.runs == s.log.runs)
  {
    AfterNext(steps, m);
    Places.NoFault(steps[..m + 1]);
    DispatchOf(After(steps[..m]), q, steps[m].found, steps[m].fits);
    hide After, Enabled, Cancelled, Application, NextDispatch;
  }

  /** While a query is not outdated, its script and its ORM are as they were. */
  lemma LiveAt(steps: seq<Step>, n: nat, m: nat, q: QueryId, amx: Addr)
    requires n < m <= |steps| && Issues(steps, n, q, amx) && (steps[n].Issue? || steps[n].IssueOrm?)
    requires steps[n].amx == amx && (steps[n].IssueOrm? ==> steps[n].orm in After(steps[..n]).lives.orms)
    requires !Outdated(steps, n, m)
    ensures var l0, l := After(steps[..n]).lives, After(steps[..m]).lives;
            && amx in l0.scripts && amx in l.scripts && l.scripts[amx] == l0.scripts[amx]
            && (steps[n].IssueOrm? ==> steps[n].orm in l.orms && l.orms[steps[n].orm] == l0.orms[steps[n].orm])
  {
    LoadedExactly(steps[..n], amx);
    hide After, LoadedBy, Reloaded, OrmEnded, Issues;
    ScriptSince(steps, n, m, q, amx);
    if steps[n].IssueOrm? {
      OrmSince(steps, n, m, q, amx, steps[n].orm, After(steps[..n]).lives.orms[steps[n].orm]);
    }
    Tokens.TokensAlways(steps[..m]);
    ScriptHolds(After(steps[..m]).lives, After(steps[..n]).lives.scripts[amx], amx);
  }

  lemma ScriptHolds(l: Lives, token: Token, amx: Addr)
    requires Tokens.TokensHeld(l) && IsScript(l, token, amx)
    ensures amx in l.scripts && l.scripts[amx] == token
  {
    assert Tokens.HeldBy(l, l.alive[token], token);
  }

  // ---------------------------------------------------------------------------
  // Where it is executed

  lemma StepLane(s: State, t: Step, q: QueryId)
    requires Enabled(s, t) && !Next(s, t).fault && q in s.log.lanes && q < s.born
    ensures q in Next(s, t).log.lanes && Next(s, t).log.lanes[q] == s.log.lanes[q] && q < Next(s, t).born
  {
    if Tokens.IsTame(t) {
      Tokens.TameStep(s, t);
      hide Next, Enabled;
    } else {
      hide NowApplied, NowStray, NewQuery, AllLoaded;
    }
  }

  lemma IssuedLane(s: State, t: Step, q: QueryId)
    requires Enabled(s, t) && !Next(s, t).fault && (t.Issue? || t.IssueOrm?) && s.born == q
    ensures q in Next(s, t).log.lanes && q < Next(s, t).born
    ensures Next(s, t).log.lanes[q]
            == if t.Issue? then Lane(t.handle, t.conn) else Lane(s.lives.orms[t.orm].handle, 0)
  {
    hide AllLoaded, NewQuery;
  }

  lemma {:induction false} LaneSince(steps: seq<Step>, n: nat, k: nat, q: QueryId, amx: Addr)
    requires n < k <= |steps| && Issues(steps, n, q, amx)
    ensures var s0, s, t := After(steps[..n]), After(steps[..k]), steps[n];
            && q in s.log.lanes && q < s.born && (t.Issue? || t.IssueOrm?)
            && (t.IssueOrm? ==> t.orm in s0.lives.orms)
            && s.log.lanes[q] == if t.Issue? then Lane(t.handle, t.conn) else Lane(s0.lives.orms[t.orm].handle, 0)
    decreases k
  {
    hide After, Next;
    AfterNext(steps, k - 1);
    Places.NoFault(steps[..k]);
    if k == n + 1 {
      IssuedLane(After(steps[..n]), steps[n], q);
    } else {
      LaneSince(steps, n, k - 1, q, amx);
      hide Enabled;
      if Happens(steps, k - 1) {
        StepLane(After(steps[..k - 1]), steps[k - 1], q);
      }
    }
  }

  /** A query is executed by the worker of the connection it was issued on; that of an ORM by the threaded connection of
      the ORM's handle. */
  lemma ExecutedThere(steps: seq<Step>, n: nat, e: nat, q: QueryId, amx: Addr)
    requires n < e < |steps| && Issues(steps, n, q, amx) && Executes(steps, e, q)
    ensures var s0, t := After(steps[..n]), steps[n];
            && steps[e].Execute? && (t.Issue? || t.IssueOrm?) && (t.IssueOrm? ==> t.orm in s0.lives.orms)
            && (t.Issue? ==> steps[e].handle == t.handle && steps[e].conn == t.conn)
            && (t.IssueOrm? ==> steps[e].handle == s0.lives.orms[t.orm].handle && steps[e].conn == 0)
  {
    LaneSince(steps, n, e, q, amx);
    Places.PlacesAlways(steps[..e]);
    hide After, Enabled, Issues;
    var s := After(steps[..e]);
    Places.LabelledAt(s, steps[e].handle, steps[e].conn);
  }

  /** Whenever scripts run, they may call any native on what exists, load, and be unloaded. */
  lemma NativesPossible(s: State, amx: Addr, o: Addr, h: Addr, kind: OrmQuery, conn: nat, callback: string)
    requires s.main.Free? && !s.tick.Taken? && !s.fault && !s.log.stray
    ensures Enabled(s, LoadScript(amx)) && Enabled(s, UnloadScript(amx))
    ensures h !in s.handles && conn <= 64 ==> Enabled(s, Connect(h, conn))
    ensures h in s.lives.handles ==>
              Enabled(s, Issue(h, conn, amx, callback)) && Enabled(s, Close(h))
              && (o !in s.lives.orms ==> Enabled(s, CreateOrm(o, h, amx)))
    ensures o in s.lives.orms ==>
              && Enabled(s, IssueOrm(o, kind, amx, callback)) && Enabled(s, DestroyOrm(o))
              && Enabled(s, UseOrm(o, Variables(s.lives.orms[o].layout)))
              && Enabled(s, ChangeOrm(o, NO_VARIABLES))
  {
  }

  // ---------------------------------------------------------------------------
  // A run

  /** A script connects, issues a query, and its public function is called. */
  function Example(): seq<Step> {
    [LoadScript(1), Connect(0, 0), Issue(0, 0, 1, "OnLoaded"), Push, Count,
     Take(0, 0), Execute(0, 0, Done), Deliver(0, 0), Pop, Dispatch(true, true)]
  }

  function ExampleQuery(): Query {
    Query(0, 1, 0, 1, Some(0), None, None, "OnLoaded")
  }

  /** What stays the same over the run's later steps. */
  predicate ExampleLives(s: State) {
    && !s.fault && !s.log.stray && s.lives.scripts == map[1 := 0] && s.lives.handles == map[0 := 1]
    && s.lives.orms == map[] && 0 in s.lives.alive && s.log.runs == [] && s.log.applied == []
    && s.queries == map[0 := ExampleQuery()]
  }

  predicate ExampleAt(s: State, main: Main, tick: Tick, callbacks: seq<QueryId>, counter: nat, c: Conn) {
    && ExampleLives(s) && s.main == main && s.tick == tick && s.callbacks == callbacks
    && s.handles.Keys == {0} && s.handles[0].generation == 1 && s.handles[0].counter == counter
    && |s.handles[0].conns| == 1 && s.handles[0].conns[0] == c
  }

  lemma ExamplePush(s: State)
    requires ExampleAt(s, Created(0), NoTick, [], 0, Conn([], Idle, true))
    ensures Enabled(s, Push) && ExampleAt(Next(s, Push), Pushed(0), NoTick, [], 0, Conn([0], Idle, true))
  {
  }

  lemma ExampleCount(s: State)
    requires ExampleAt(s, Pushed(0), NoTick, [], 0, Conn([0], Idle, true))
    ensures Enabled(s, Count) && ExampleAt(Next(s, Count), Free, NoTick, [], 1, Conn([0], Idle, true))
  {
  }

  lemma ExampleTake(s: State)
    requires ExampleAt(s, Free, NoTick, [], 1, Conn([0], Idle, true))
    ensures Enabled(s, Take(0, 0)) && ExampleAt(Next(s, Take(0, 0)), Free, NoTick, [], 1, Conn([], Executing(0), true))
  {
  }

  lemma ExampleExecute(s: State)
    requires ExampleAt(s, Free, NoTick, [], 1, Conn([], Executing(0), true))
    ensures Enabled(s, Execute(0, 0, Done))
    ensures ExampleAt(Next(s, Execute(0, 0, Done)), Free, NoTick, [], 0, Conn([], Executed(0), true))
  {
  }

  lemma ExampleDeliver(s: State)
    requires ExampleAt(s, Free, NoTick, [], 0, Conn([], Executed(0), true))
    ensures Enabled(s, Deliver(0, 0)) && ExampleAt(Next(s, Deliver(0, 0)), Free, NoTick, [0], 0, Conn([], Idle, true))
  {
  }

  lemma ExamplePop(s: State)
    requires ExampleAt(s, Free, NoTick, [0], 0, Conn([], Idle, true))
    ensures Enabled(s, Pop) && ExampleAt(Next(s, Pop), Free, Taken(0), [], 0, Conn([], Idle, true))
  {
  }

  lemma ExampleIssued()
    ensures ExampleAt(After(Example()[..3]), Created(0), NoTick, [], 0, Conn([], Idle, true))
  {
    ExampleConnected();
    AfterNext(Example(), 2);
    hide After;
  }

  lemma ExampleConnected()
    ensures var s := After(Example()[..2]);
            && s == Init().(lives := s.lives, handles := s.handles)
            && s.lives.scripts == map[1 := 0] && s.lives.handles == map[0 := 1] && s.lives.orms == map[]
            && 0 in s.lives.alive && s.handles == map[0 := Handle(1, 0, [Conn([], Idle, true)])]
  {
    assert Example()[..0] == [];
    AfterNext(Example(), 0);
    AfterNext(Example(), 1);
    hide After;
    assert seq(1, _ => Conn([], Idle, true)) == [Conn([], Idle, true)];
  }

  lemma ExampleTaken()
    ensures ExampleAt(After(Example()[..9]), Free, Taken(0), [], 0, Conn([], Idle, true))
  {
    hide After, Next, Enabled, ExampleAt;
    ExampleIssued();
    ExamplePush(After(Example()[..3]));
    AfterNext(Example(), 3);
    ExampleCount(After(Example()[..4]));
    AfterNext(Example(), 4);
    ExampleTake(After(Example()[..5]));
    AfterNext(Example(), 5);
    ExampleExecute(After(Example()[..6]));
    AfterNext(Example(), 6);
    ExampleDeliver(After(Example()[..7]));
    AfterNext(Example(), 7);
    ExamplePop(After(Example()[..8]));
    AfterNext(Example(), 8);
  }

  /** The public function runs, in the generation that issued the query. */
  lemma ExampleServed()
    ensures var s := After(Example()); s.tick == Running(0, 1) && s.log.runs == [Run(0, Some(0), 0)] && 0 in s.queries
  {
    ExampleTaken();
    AfterNext(Example(), 9);
    assert Example()[..10] == Example();
    hide After;
  }
}
