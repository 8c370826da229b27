/** Lifetimes over every run of the life cycle: a public function runs only in the generation of the script that
    issued the query, and a result is applied only to the ORM, with the layout, that the query was generated from. */
module LifecycleTokens {
  import opened Wrappers
  import opened Lifecycle
  import LifecycleHandles

  predicate HeldBy(l: Lives, holder: Holder, t: Token) {
    match holder
    case OfScript(a) => a in l.scripts && l.scripts[a] == t
    case OfHandle(h) => h in l.handles && l.handles[h] == t
    case OfOrm(o) => o in l.orms && l.orms[o].lifetime == t
  }

  /** A control block is alive exactly as long as its holder holds it. */
  ghost predicate TokensHeld(l: Lives) {
    && (forall t :: t in l.alive ==> t < l.next && HeldBy(l, l.alive[t], t))
    && (forall a :: a in l.scripts ==> Alive(l, l.scripts[a], OfScript(a)))
    && (forall h :: h in l.handles ==> Alive(l, l.handles[h], OfHandle(h)))
    && (forall o :: o in l.orms ==> Alive(l, l.orms[o].lifetime, OfOrm(o)))
  }

  predicate Alive(l: Lives, t: Token, holder: Holder) {
    t in l.alive && l.alive[t] == holder
  }

  /** What a query keeps about its handle, its script and its ORM is true of them while their control blocks live. */
  ghost predicate Bound(l: Lives, x: Query) {
    && TokenOf(l, x.generation, OfHandle(x.handle))
    && (x.script.Some? ==> TokenOf(l, x.script.value, OfScript(x.owner)))
    && (x.binding.Some? ==> BindingHolds(l, x.binding.value))
    && (x.target.Some? ==> x.binding.Some? && x.target.value == x.binding.value.orm)
  }

  predicate TokenOf(l: Lives, t: Token, holder: Holder) {
    t < l.next && (t in l.alive ==> l.alive[t] == holder)
  }

  predicate BindingHolds(l: Lives, b: Binding) {
    && TokenOf(l, b.lifetime, OfOrm(b.orm))
    && (b.lifetime in l.alive ==> b.orm in l.orms && l.orms[b.orm].layout == b.layout)
  }

  /** The ORMs of a handle go before it does. */
  ghost predicate OrmsHaveHandles(l: Lives) {
    forall o :: o in l.orms ==> l.orms[o].handle in l.handles
  }

  ghost predicate QueriesBound(s: State) {
    forall q :: q in s.queries ==> Bound(s.lives, s.queries[q])
  }

  /** Each entry of the log tells of the right script and the right ORM. */
  ghost predicate LogTrue(s: State) {
    && (forall i :: 0 <= i < |s.log.runs| ==> s.log.runs[i].issued == Some(s.log.runs[i].ran))
    && (forall i :: 0 <= i < |s.log.applied| ==> s.log.applied[i].current == s.log.applied[i].generated)
  }

  ghost predicate TokenInv(s: State) {
    TokensHeld(s.lives) && OrmsHaveHandles(s.lives) && QueriesBound(s) && LogTrue(s)
  }

  // ---------------------------------------------------------------------------
  // Steps that change lifetimes

  /** What any change of the lifetimes must keep: new control blocks are new, and a live binding's ORM is the same. */
  ghost predicate LivesStep(l: Lives, l': Lives) {
    TokensHeld(l') && OrmsHaveHandles(l') && OldStays(l, l')
  }

  ghost predicate OldStays(l: Lives, l': Lives) {
    && l.next <= l'.next
    && (forall t :: t in l'.alive && t < l.next ==> t in l.alive && l'.alive[t] == l.alive[t])
    && (forall o :: o in l'.orms && l'.orms[o].lifetime < l.next ==> o in l.orms && l'.orms[o] == l.orms[o])
  }

  lemma LoadTokens(l: Lives, amx: Addr)
    requires TokensHeld(l) && OrmsHaveHandles(l)
    ensures TokensHeld(Load(l, amx))
  {
    hide TokenOf, Bound, OrmsHaveHandles;
  }

  lemma LoadKeeps(l: Lives, amx: Addr)
    requires TokensHeld(l) && OrmsHaveHandles(l)
    ensures LivesStep(l, Load(l, amx))
  {
    LoadTokens(l, amx);
    assert OldStays(l, Load(l, amx));
  }

  /** A control block that is left belongs to something that is left. */
  lemma UnloadAlive(l: Lives, amx: Addr, t: Token)
    requires TokensHeld(l) && t in Unload(l, amx).alive
    ensures t < Unload(l, amx).next && HeldBy(Unload(l, amx), Unload(l, amx).alive[t], t)
  {
    assert HeldBy(l, l.alive[t], t);
  }

  /** What is left keeps its control block. */
  lemma UnloadHolds(l: Lives, amx: Addr)
    requires TokensHeld(l)
    ensures var l' := Unload(l, amx);
            && (forall a :: a in l'.scripts ==> Alive(l', l'.scripts[a], OfScript(a)))
            && (forall h :: h in l'.handles ==> Alive(l', l'.handles[h], OfHandle(h)))
            && (forall o :: o in l'.orms ==> Alive(l', l'.orms[o].lifetime, OfOrm(o)))
  {
    hide HeldBy;
  }

  lemma UnloadTokens(l: Lives, amx: Addr)
    requires TokensHeld(l) && OrmsHaveHandles(l)
    ensures TokensHeld(Unload(l, amx))
  {
    var l' := Unload(l, amx);
    forall t | t in l'.alive ensures t < l'.next && HeldBy(l', l'.alive[t], t) {
      UnloadAlive(l, amx, t);
    }
    UnloadHolds(l, amx);
    hide Unload, HeldBy, OrmsHaveHandles;
  }

  lemma UnloadKeeps(l: Lives, amx: Addr)
    requires TokensHeld(l) && OrmsHaveHandles(l)
    ensures LivesStep(l, Unload(l, amx))
  {
    UnloadTokens(l, amx);
    assert OldStays(l, Unload(l, amx));
  }

  lemma NewHandleTokens(l: Lives, h: Addr)
    requires TokensHeld(l) && OrmsHaveHandles(l) && h !in l.handles
    ensures TokensHeld(NewHandle(l, h))
  {
    hide TokenOf, Bound, OrmsHaveHandles;
  }

  lemma NewHandleKeeps(l: Lives, h: Addr)
    requires TokensHeld(l) && OrmsHaveHandles(l) && h !in l.handles
    ensures LivesStep(l, NewHandle(l, h))
  {
    NewHandleTokens(l, h);
    assert OldStays(l, NewHandle(l, h));
  }

  lemma RetireTokens(l: Lives, h: Addr)
    requires TokensHeld(l) && OrmsHaveHandles(l) && h in l.handles
    ensures TokensHeld(Retire(l, h))
  {
    hide TokenOf, Bound, OrmsHaveHandles;
  }

  lemma RetireKeeps(l: Lives, h: Addr)
    requires TokensHeld(l) && OrmsHaveHandles(l) && h in l.handles
    ensures LivesStep(l, Retire(l, h))
  {
    RetireTokens(l, h);
    assert OldStays(l, Retire(l, h));
  }

  lemma NewOrmTokens(l: Lives, o: Addr, h: Addr, amx: Addr, layout: Layout)
    requires TokensHeld(l) && OrmsHaveHandles(l) && o !in l.orms && h in l.handles
    ensures TokensHeld(NewOrm(l, o, h, amx, layout))
  {
    hide TokenOf, Bound, OrmsHaveHandles;
  }

  lemma NewOrmKeeps(l: Lives, o: Addr, h: Addr, amx: Addr, layout: Layout)
    requires TokensHeld(l) && OrmsHaveHandles(l) && o !in l.orms && h in l.handles
    ensures LivesStep(l, NewOrm(l, o, h, amx, layout))
  {
    NewOrmTokens(l, o, h, amx, layout);
    assert OldStays(l, NewOrm(l, o, h, amx, layout));
  }

  lemma ChangeTokens(l: Lives, o: Addr, layout: Layout)
    requires TokensHeld(l) && OrmsHaveHandles(l) && o in l.orms
    ensures TokensHeld(Change(l, o, layout))
  {
    hide TokenOf, Bound, OrmsHaveHandles;
  }

  lemma ChangeKeeps(l: Lives, o: Addr, layout: Layout)
    requires TokensHeld(l) && OrmsHaveHandles(l) && o in l.orms
    ensures LivesStep(l, Change(l, o, layout))
  {
    ChangeTokens(l, o, layout);
    assert OldStays(l, Change(l, o, layout));
  }

  lemma DestroyTokens(l: Lives, o: Addr)
    requires TokensHeld(l) && OrmsHaveHandles(l) && o in l.orms
    ensures TokensHeld(Destroy(l, o))
  {
    hide TokenOf, Bound, OrmsHaveHandles;
  }

  lemma DestroyKeeps(l: Lives, o: Addr)
    requires TokensHeld(l) && OrmsHaveHandles(l) && o in l.orms
    ensures LivesStep(l, Destroy(l, o))
  {
    DestroyTokens(l, o);
    assert OldStays(l, Destroy(l, o));
  }

  lemma StillBound(l: Lives, l': Lives, x: Query)
    requires Bound(l, x) && LivesStep(l, l')
    ensures Bound(l', x)
  {
  }

  // ---------------------------------------------------------------------------
  // Steps that do not

  /** Queries may be deleted or lose their ORM, and nothing else happens to the lifetimes, nor to what the log has of
      births, runs and results. */
  ghost predicate Tame(s: State, s': State) {
    && s'.lives == s.lives
    && (forall q :: q in s'.queries ==> q in s.queries && Tamed(s.queries[q], s'.queries[q]))
    && s'.log.runs == s.log.runs && s'.log.applied == s.log.applied
    && s'.born == s.born && s'.log.lanes == s.log.lanes
  }

  predicate Tamed(x: Query, x': Query) {
    x' == x.(target := x'.target, callback := x'.callback) && (x'.target == x.target || x'.target == None)
  }

  lemma TameKeeps(s: State, s': State)
    requires TokenInv(s) && Tame(s, s')
    ensures TokenInv(s')
  {
    hide TokensHeld, OrmsHaveHandles, TokenOf, BindingHolds;
    forall q | q in s'.queries ensures Bound(s'.lives, s'.queries[q]) {
      assert Bound(s.lives, s.queries[q]);
    }
  }

  lemma DeleteTame(s: State, q: QueryId)
    ensures Tame(s, DeleteQuery(s, q))
  {
  }

  lemma PushTame(s: State, q: QueryId)
    ensures Tame(s, NextPush(s, q))
  {
  }

  lemma CountTame(s: State, h: Addr)
    ensures Tame(s, NextCount(s, h))
  {
  }

  lemma TakeTame(s: State, h: Addr, i: nat)
    requires HasConn(s, h, i) && ConnAt(s, h, i).queue != []
    ensures Tame(s, NextTake(s, h, i))
  {
  }

  lemma ExecuteTame(s: State, h: Addr, i: nat, outcome: Outcome)
    requires HasConn(s, h, i) && ConnAt(s, h, i).worker.Executing?
    ensures Tame(s, NextExecute(s, h, i, outcome))
  {
  }

  lemma DeliverTame(s: State, h: Addr, i: nat)
    requires HasConn(s, h, i) && ConnAt(s, h, i).worker.Executed?
    ensures Tame(s, NextDeliver(s, h, i))
  {
  }

  lemma StopTame(s: State, h: Addr, i: nat)
    ensures Tame(s, NextStop(s, h, i))
  {
  }

  lemma DrainTame(s: State, h: Addr, i: nat)
    ensures Tame(s, NextDrain(s, h, i))
  {
  }

  lemma SweepTame(s: State, h: Addr, kept: seq<QueryId>)
    ensures Tame(s, NextSweep(s, h, kept))
  {
  }

  lemma RestoreTame(s: State, kept: seq<QueryId>)
    ensures Tame(s, NextRestore(s, kept))
  {
  }

  lemma ReturnTame(s: State, q: QueryId, lifetime: Token)
    ensures Tame(s, NextReturn(s, q, lifetime))
  {
  }

  predicate IsTame(t: Step) {
    t.Push? || t.Count? || t.Take? || t.Execute? || t.Deliver? || t.Exit? || t.Stop? || t.Join? || t.Drain? || t.Sweep?
    || t.Restore? || t.Pop? || t.Return? || t.UseOrm?
  }

  lemma TameStep(s: State, t: Step)
    requires Enabled(s, t) && IsTame(t)
    ensures Tame(s, Next(s, t))
  {
    hide Tame, NextPush, NextCount, NextTake, NextExecute, NextDeliver, SetConn, NextStop, NextDrain, NextSweep,
      NextRestore, NextReturn;
    match t
    case Push => PushTame(s, s.main.query);
    case Count => CountTame(s, s.main.handle);
    case Take(h, i) => TakeTame(s, h, i);
    case Execute(h, i, outcome) => ExecuteTame(s, h, i, outcome);
    case Deliver(h, i) => DeliverTame(s, h, i);
    case Exit(h, i) => ExitTame(s, h, i);
    case Stop => StopTame(s, s.main.handle, s.main.conn);
    case Join => PlainTame(s, Next(s, t));
    case Drain => DrainTame(s, s.main.handle, s.main.conn);
    case Sweep => SweepTame(s, s.main.handle, s.main.kept);
    case Restore => RestoreTame(s, s.main.kept);
    case Pop => PlainTame(s, Next(s, t));
    case Return => ReturnTame(s, s.tick.query, s.tick.lifetime);
    case UseOrm(o, used) => PlainTame(s, Next(s, t));
  }

  lemma ExitTame(s: State, h: Addr, i: nat)
    requires HasConn(s, h, i)
    ensures Tame(s, SetConn(s, h, i, ConnAt(s, h, i).(worker := Exited)))
  {
  }

  lemma PlainTame(s: State, s': State)
    requires s' == s.(callbacks := s'.callbacks, main := s'.main, tick := s'.tick,
                      log := s.log.(stray := s'.log.stray))
    ensures Tame(s, s')
  {
  }

  // ---------------------------------------------------------------------------
  // The rest

  lemma LivesKeep(s: State, l: Lives, handles: map<Addr, Handle>, main: Main, closed: bool)
    requires TokenInv(s) && LivesStep(s.lives, l)
    ensures TokenInv(s.(lives := l, handles := handles, main := main, log := s.log.(closed := closed)))
  {
    hide TokensHeld, OrmsHaveHandles, OldStays, Bound;
    forall q | q in s.queries ensures Bound(l, s.queries[q]) {
      StillBound(s.lives, l, s.queries[q]);
    }
  }

  lemma LivesSteps(s: State, t: Step)
    requires Enabled(s, t) && TokenInv(s) && LifecycleHandles.HandleInv(s)
    requires t.LoadScript? || t.UnloadScript? || t.Connect? || t.CreateOrm? || t.ChangeOrm? || t.DestroyOrm? || t.Close?
    ensures TokenInv(Next(s, t))
  {
    var s' := Next(s, t);
    hide TokenInv, Load, Unload, NewHandle, NewOrm, Change, Destroy, Retire, TokensHeld, OrmsHaveHandles, OldStays;
    assert TokensHeld(s.lives) && OrmsHaveHandles(s.lives) by {
      InvParts(s);
    }
    match t {
      case LoadScript(amx) => LoadKeeps(s.lives, amx);
      case UnloadScript(amx) => UnloadKeeps(s.lives, amx);
      case Connect(h, pool) => NewHandleKeeps(s.lives, h);
      case CreateOrm(o, h, amx) => NewOrmKeeps(s.lives, o, h, amx, NO_VARIABLES);
      case ChangeOrm(o, layout) => ChangeKeeps(s.lives, o, layout);
      case DestroyOrm(o) => DestroyKeeps(s.lives, o);
      case Close(h) => RetireKeeps(s.lives, h);
    }
    LivesKeep(s, s'.lives, s'.handles, s'.main, s'.log.closed);
    assert s' == s.(lives := s'.lives, handles := s'.handles, main := s'.main, log := s.log.(closed := s'.log.closed));
  }

  lemma InvParts(s: State)
    requires TokenInv(s)
    ensures TokensHeld(s.lives) && OrmsHaveHandles(s.lives)
  {
  }

  lemma IssueKeeps(s: State, h: Addr, conn: nat, amx: Addr, binding: Option<Binding>, callback: string)
    requires TokenInv(s) && h in s.lives.handles && (binding.Some? ==> BindingHolds(s.lives, binding.value))
    ensures TokenInv(NextIssue(s, h, conn, amx, binding, callback))
  {
    hide OrmsHaveHandles, BindingHolds;
    NewBound(s.lives, h, conn, amx, binding, callback);
    hide TokensHeld, Bound;
  }

  lemma NewBound(l: Lives, h: Addr, conn: nat, amx: Addr, binding: Option<Binding>, callback: string)
    requires TokensHeld(l) && h in l.handles && (binding.Some? ==> BindingHolds(l, binding.value))
    ensures Bound(l, NewQuery(l, h, conn, amx, binding, callback))
  {
  }

  lemma TouchKeeps(s: State, used: set<BoundVariable>)
    requires TokenInv(s)
    ensures TokenInv(Touch(s, used))
  {
  }

  lemma IssueOrmKeeps(s: State, o: Addr, kind: OrmQuery, amx: Addr, callback: string)
    requires TokenInv(s) && o in s.lives.orms
    ensures TokenInv(NextIssueOrm(s, o, kind, amx, callback))
  {
    hide NextIssue;
    var orm := s.lives.orms[o];
    TouchKeeps(s, Needed(orm.layout, kind));
    var binding := Some(Binding(o, orm.lifetime, orm.layout, kind));
    IssueKeeps(Touch(s, Needed(orm.layout, kind)), orm.handle, 0, amx, binding, callback);
  }

  /** A query that is not cancelled finds its script and its ORM as they were when it was issued. */
  lemma LiveQuery(l: Lives, x: Query)
    requires TokensHeld(l) && Bound(l, x)
    ensures x.script.Some? && x.script.value in l.alive ==> x.owner in l.scripts && l.scripts[x.owner] == x.script.value
    ensures x.binding.Some? && x.binding.value.lifetime in l.alive && x.target.Some? ==>
              x.target.value in l.orms && l.orms[x.target.value].layout == x.binding.value.layout
  {
  }

  lemma DispatchKeeps(s: State, q: QueryId, found: bool, fits: bool)
    requires TokenInv(s)
    ensures TokenInv(NextDispatch(s, q, found, fits))
  {
    hide NowStray, NowApplied, Tame, Tamed;
    if q in s.queries {
      DeleteTame(s, q);
      LiveQuery(s.lives, s.queries[q]);
      hide TokensHeld, OrmsHaveHandles, Bound;
      if !Cancelled(s, s.queries[q]) {
        AppliedTrue(s, q);
      }
      hide DeleteQuery;
      TameKeeps(s, DeleteQuery(s, q));
    }
  }

  lemma AppliedTrue(s: State, q: QueryId)
    requires TokenInv(s) && q in s.queries && !Cancelled(s, s.queries[q])
    ensures LogTrue(s.(log := s.log.(applied := NowApplied(s, q))))
  {
    LiveQuery(s.lives, s.queries[q]);
  }

  lemma TokenInvKept(s: State, t: Step)
    requires Enabled(s, t) && TokenInv(s) && LifecycleHandles.HandleInv(s)
    ensures TokenInv(Next(s, t))
  {
    hide TokenInv, LifecycleHandles.HandleInv, NextIssue, NextIssueOrm, NextDispatch;
    if IsTame(t) {
      TameStep(s, t);
      TameKeeps(s, Next(s, t));
    } else if t.Issue? {
      IssueKeeps(s, t.handle, t.conn, t.amx, None, t.callback);
    } else if t.IssueOrm? {
      IssueOrmKeeps(s, t.orm, t.kind, t.amx, t.callback);
    } else if t.Dispatch? {
      DispatchKeeps(s, s.tick.query, t.found, t.fits);
    } else {
      LivesSteps(s, t);
    }
  }

  lemma {:induction false} TokensAlways(steps: seq<Step>)
    ensures TokenInv(After(steps))
  {
    if steps != [] {
      var init := steps[..|steps| - 1];
      TokensAlways(init);
      LifecycleHandles.HandlesAlways(init);
      hide TokenInv, Enabled, Next;
      if Enabled(After(init), steps[|steps| - 1]) {
        TokenInvKept(After(init), steps[|steps| - 1]);
      }
    }
  }

  // ---------------------------------------------------------------------------
  // What the runs show

  /** A public function runs only in the generation of its script that issued the query. */
  lemma RightGeneration(steps: seq<Step>, i: nat)
    requires i < |After(steps).log.runs|
    ensures After(steps).log.runs[i].issued == Some(After(steps).log.runs[i].ran)
  {
    TokensAlways(steps);
  }

  /** A result reaches an ORM only while its variables and key are those the query was generated from. */
  lemma RightLayout(steps: seq<Step>, i: nat)
    requires i < |After(steps).log.applied|
    ensures After(steps).log.applied[i].current == After(steps).log.applied[i].generated
  {
    TokensAlways(steps);
  }
}
