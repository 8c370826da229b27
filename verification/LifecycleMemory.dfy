/** The memory of scripts over every run. An ORM keeps addresses of variables; the natives let any script bind its own
    variables to any ORM, but only the end of the ORM's owner destroys it. So a variable of another script can be read
    or written after that script has ended. */
module LifecycleMemory {
  import opened Wrappers
  import opened Lifecycle
  import Tokens = LifecycleTokens
  import Places = LifecyclePlaces
  import opened LifecycleTick

  /** The variables a step reads or writes. */
  function Uses(s: State, t: Step): set<BoundVariable>
    requires Enabled(s, t)
  {
    match t
    case UseOrm(_, used) => used
    case IssueOrm(o, kind, _, _) => Needed(s.lives.orms[o].layout, kind)
    case Dispatch(_, fits) => if fits && s.tick.query in s.queries then Results(s, s.queries[s.tick.query]) else {}
    case _ => {}
  }

  /** What the result of a query that is not cancelled is written to. */
  function Results(s: State, x: Query): set<BoundVariable> {
    if !Cancelled(s, x) && x.target.Some? && x.target.value in s.lives.orms && x.binding.Some? then
      Written(s.lives.orms[x.target.value].layout, x.binding.value.kind)
    else {}
  }

  predicate UsesLoaded(s: State, t: Step)
    requires Enabled(s, t)
  {
    AllLoaded(s.lives, Uses(s, t))
  }

  lemma DispatchStrays(s: State, q: QueryId, found: bool, fits: bool)
    requires s.tick == Taken(q) && !NextDispatch(s, q, found, fits).fault && !s.log.stray && q in s.queries
    ensures NextDispatch(s, q, found, fits).log.stray <==> fits && !AllLoaded(s.lives, Results(s, s.queries[q]))
  {
    hide NowApplied, Written, Loaded;
  }

  lemma TameStays(s: State, t: Step)
    requires Enabled(s, t) && Tokens.IsTame(t) && !t.UseOrm?
    ensures Next(s, t).log.stray == s.log.stray
  {
  }

  /** A step strays exactly if it uses a variable whose script is not loaded any more. */
  lemma StepStrays(s: State, t: Step)
    requires Enabled(s, t) && !Next(s, t).fault
    ensures Next(s, t).log.stray <==> !UsesLoaded(s, t)
  {
    if Tokens.IsTame(t) && !t.UseOrm? {
      TameStays(s, t);
      hide Next, Enabled;
    } else if t.Dispatch? {
      assert s.tick.query in s.queries;
      DispatchStrays(s, s.tick.query, t.found, t.fits);
      hide NextDispatch;
    } else {
      hide Loaded, Needed;
    }
  }

  /** An ORM's native strays exactly if the text of its query needs a variable of a script that is not loaded: SELECT
      and DELETE the key, UPDATE all variables and the key, INSERT all variables and a key that is a string. */
  lemma IssueStrays(s: State, o: Addr, kind: OrmQuery, amx: Addr, callback: string)
    requires Enabled(s, IssueOrm(o, kind, amx, callback)) && !Next(s, IssueOrm(o, kind, amx, callback)).fault
    ensures var layout := s.lives.orms[o].layout;
            Next(s, IssueOrm(o, kind, amx, callback)).log.stray <==>
              exists v: BoundVariable :: v in Variables(layout)
                          && (v.amx !in s.lives.scripts || s.lives.scripts[v.amx] != v.script)
                          && ((layout.key == Some(v) && (kind != Insert || v.text))
                              || (v in layout.vars && (kind == Update || kind == Insert)))
  {
    var layout := s.lives.orms[o].layout;
    NeedsAre(layout, kind);
    hide Needed;
  }

  lemma NeedsAre(layout: Layout, kind: OrmQuery)
    ensures forall v :: v in Needed(layout, kind) <==>
              v in Variables(layout) &&
              ((layout.key == Some(v) && (kind != Insert || v.text))
               || (v in layout.vars && (kind == Update || kind == Insert)))
  {
  }

  /** A result that fits strays exactly if it is written to a variable of a script that is not loaded: that of a SELECT
      to all variables, that of an INSERT to a key that is a number. */
  lemma ResultStrays(s: State, q: QueryId, found: bool, fits: bool)
    requires s.tick == Taken(q) && !NextDispatch(s, q, found, fits).fault && !s.log.stray && q in s.queries
    requires !Cancelled(s, s.queries[q]) && s.queries[q].target.Some? && s.queries[q].binding.Some?
    requires s.queries[q].target.value in s.lives.orms
    ensures var layout, kind := s.lives.orms[s.queries[q].target.value].layout, s.queries[q].binding.value.kind;
            NextDispatch(s, q, found, fits).log.stray <==>
              fits && exists v: BoundVariable :: v in Variables(layout)
                                  && (v.amx !in s.lives.scripts || s.lives.scripts[v.amx] != v.script)
                                  && ((v in layout.vars && kind == Select)
                                      || (layout.key == Some(v) && kind == Insert && !v.text))
  {
    var x := s.queries[q];
    var layout, kind := s.lives.orms[x.target.value].layout, x.binding.value.kind;
    DispatchStrays(s, q, found, fits);
    WritesAre(layout, kind);
    hide NextDispatch, Written, Cancelled;
    assert Results(s, x) == Written(layout, kind);
  }

  lemma WritesAre(layout: Layout, kind: OrmQuery)
    ensures forall v :: v in Written(layout, kind) <==>
              v in Variables(layout)
              && ((v in layout.vars && kind == Select) || (layout.key == Some(v) && kind == Insert && !v.text))
  {
  }

  /** The n-th step of the run uses a variable whose script is not loaded at that moment. */
  predicate StraysAt(steps: seq<Step>, n: nat)
    requires n < |steps|
  {
    var s := After(steps[..n]);
    Enabled(s, steps[n]) && !UsesLoaded(s, steps[n])
  }

  lemma SameStray(steps: seq<Step>, init: seq<Step>, n: nat)
    requires n < |init| < |steps| && init == steps[..|steps| - 1]
    ensures StraysAt(steps, n) <==> StraysAt(init, n)
  {
    hide After, Enabled, UsesLoaded;
    assert steps[..n] == init[..n] && steps[n] == init[n];
  }

  lemma LastStray(steps: seq<Step>, init: seq<Step>)
    requires steps != [] && init == steps[..|steps| - 1]
    ensures After(init).log.stray ==> After(steps).log.stray
    ensures !After(init).log.stray ==> (After(steps).log.stray <==> StraysAt(steps, |init|))
  {
    hide After, Next, Enabled, UsesLoaded;
    Places.NoFault(steps);
    var s, t := After(init), steps[|steps| - 1];
    assert steps[..|init|] == init && steps[|init|] == t;
    StrayStops(s, t);
    if Enabled(s, t) {
      AfterLast(steps, init);
      StepStrays(s, t);
    } else {
      NotTaken(steps, init);
    }
  }

  lemma AfterLast(steps: seq<Step>, init: seq<Step>)
    requires steps != [] && init == steps[..|steps| - 1] && Enabled(After(init), steps[|steps| - 1])
    ensures After(steps) == Next(After(init), steps[|steps| - 1])
  {
    hide Next, Enabled;
  }

  lemma StrayStops(s: State, t: Step)
    ensures s.log.stray ==> !Enabled(s, t)
  {
  }

  /** Over every run: the memory of an ended script is touched exactly if some step of the run uses a variable whose
      script is not loaded at that moment. */
  lemma {:induction false} StraysExactly(steps: seq<Step>)
    ensures After(steps).log.stray <==> exists n :: 0 <= n < |steps| && StraysAt(steps, n)
  {
    hide StraysAt;
    if steps == [] {
      hide Enabled, Next;
      assert !After(steps).log.stray;
    } else {
      var init := steps[..|steps| - 1];
      StraysExactly(init);
      LastStray(steps, init);
      forall n: nat | n < |init| ensures StraysAt(steps, n) <==> StraysAt(init, n) {
        SameStray(steps, init, n);
      }
      hide After;
      if After(init).log.stray {
        var n: nat :| n < |init| && StraysAt(init, n);
        assert StraysAt(steps, n);
      }
    }
  }

  // ---------------------------------------------------------------------------
  // Owners and others

  /** The variable was bound by the script that owns the ORM. */
  predicate Owned(orm: Orm, v: BoundVariable) {
    v.amx == orm.owner
  }

  /** An owner's variables are there as long as its ORMs. */
  ghost predicate OwnedLoaded(l: Lives) {
    forall o, v :: o in l.orms && v in Variables(l.orms[o].layout) && Owned(l.orms[o], v) ==> Loaded(l, v)
  }

  ghost predicate AllOwned(l: Lives) {
    forall o, v :: o in l.orms && v in Variables(l.orms[o].layout) ==> Owned(l.orms[o], v)
  }

  /** The server unloads a script before it loads another one at the same address. */
  predicate NoReload(s: State, t: Step) {
    t.LoadScript? ==> t.amx !in s.lives.scripts
  }

  /** Only an ORM's owner binds variables to it. */
  predicate OwnerBinds(s: State, t: Step)
    requires Enabled(s, t)
  {
    t.ChangeOrm? ==>
      var orm := s.lives.orms[t.orm];
      forall v :: v in Variables(t.layout) && v !in Variables(orm.layout) ==> Owned(orm, v)
  }

  lemma OwnedLoad(l: Lives, amx: Addr)
    requires OwnedLoaded(l) && amx !in l.scripts
    ensures OwnedLoaded(Load(l, amx)) && (AllOwned(l) ==> AllOwned(Load(l, amx)))
  {
    hide Variables;
    var l' := Load(l, amx);
    forall o, v | o in l'.orms && v in Variables(l'.orms[o].layout) && Owned(l'.orms[o], v) ensures Loaded(l', v) {
      assert Loaded(l, v);
    }
  }

  lemma OwnedUnload(l: Lives, amx: Addr)
    requires OwnedLoaded(l)
    ensures OwnedLoaded(Unload(l, amx)) && (AllOwned(l) ==> AllOwned(Unload(l, amx)))
  {
    hide Variables;
    var l' := Unload(l, amx);
    forall o, v | o in l'.orms && v in Variables(l'.orms[o].layout) && Owned(l'.orms[o], v) ensures Loaded(l', v) {
      assert o in l.orms && l.orms[o] == l'.orms[o] && Loaded(l, v);
    }
  }

  lemma OwnedChange(l: Lives, o: Addr, layout: Layout)
    requires OwnedLoaded(l) && o in l.orms && Rebinds(l, o, layout)
    ensures OwnedLoaded(Change(l, o, layout))
  {
    hide Variables;
    var l' := Change(l, o, layout);
    forall p, v | p in l'.orms && v in Variables(l'.orms[p].layout) && Owned(l'.orms[p], v) ensures Loaded(l', v) {
      assert p == o ==> v in Variables(layout);
      assert v in Variables(l.orms[p].layout) ==> Loaded(l, v);
    }
  }

  lemma OwnedNewOrm(l: Lives, o: Addr, h: Addr, amx: Addr)
    requires OwnedLoaded(l)
    ensures OwnedLoaded(NewOrm(l, o, h, amx, NO_VARIABLES))
    ensures AllOwned(l) ==> AllOwned(NewOrm(l, o, h, amx, NO_VARIABLES))
  {
    var l' := NewOrm(l, o, h, amx, NO_VARIABLES);
    assert Variables(NO_VARIABLES) == {};
    hide Variables;
    forall p, v | p in l'.orms && v in Variables(l'.orms[p].layout) && Owned(l'.orms[p], v) ensures Loaded(l', v) {
      assert Loaded(l, v);
    }
  }

  /** Fewer ORMs, and the same scripts. */
  lemma OwnedFewer(l: Lives, l': Lives)
    requires OwnedLoaded(l) && l'.scripts == l.scripts && l'.orms == l.orms - (l.orms.Keys - l'.orms.Keys)
    ensures OwnedLoaded(l') && (AllOwned(l) ==> AllOwned(l'))
  {
    hide Variables;
    forall o, v | o in l'.orms && v in Variables(l'.orms[o].layout) && Owned(l'.orms[o], v) ensures Loaded(l', v) {
      assert o in l.orms && l.orms[o] == l'.orms[o] && Loaded(l, v);
    }
  }

  /** Steps that leave scripts and ORMs as they are. */
  lemma SameLives(s: State, t: Step)
    requires Enabled(s, t) && (Tokens.IsTame(t) || t.Issue? || t.IssueOrm? || t.Dispatch?)
    ensures Next(s, t).lives == s.lives
  {
    if Tokens.IsTame(t) {
      Tokens.TameStep(s, t);
      hide Next, Enabled;
    } else {
      hide NowApplied, NowStray, NewQuery;
    }
  }

  lemma OwnedStep(s: State, t: Step)
    requires Enabled(s, t) && OwnedLoaded(s.lives) && NoReload(s, t)
    ensures OwnedLoaded(Next(s, t).lives)
    ensures AllOwned(s.lives) && OwnerBinds(s, t) ==> AllOwned(Next(s, t).lives)
  {
    hide OwnedLoaded, AllOwned, Load, Unload, NewHandle, NewOrm, Change, Destroy, Retire, OwnerBinds;
    var l := s.lives;
    match t {
      case LoadScript(amx) => OwnedLoad(l, amx);
      case UnloadScript(amx) => OwnedUnload(l, amx);
      case Connect(h, pool) => ConnectFewer(l, h);
      case CreateOrm(o, h, amx) => OwnedNewOrm(l, o, h, amx);
      case ChangeOrm(o, layout) =>
        OwnedChange(l, o, layout);
        ChangeOwned(s, o, layout);
      case DestroyOrm(o) => DestroyFewer(l, o);
      case Close(h) => RetireFewer(l, h);
      case _ => SameLives(s, t);
    }
  }

  lemma ConnectFewer(l: Lives, h: Addr)
    requires OwnedLoaded(l)
    ensures OwnedLoaded(NewHandle(l, h)) && (AllOwned(l) ==> AllOwned(NewHandle(l, h)))
  {
    assert l.orms - (l.orms.Keys - l.orms.Keys) == l.orms;
    hide OwnedLoaded, AllOwned;
    OwnedFewer(l, NewHandle(l, h));
  }

  lemma DestroyFewer(l: Lives, o: Addr)
    requires OwnedLoaded(l) && o in l.orms
    ensures OwnedLoaded(Destroy(l, o)) && (AllOwned(l) ==> AllOwned(Destroy(l, o)))
  {
    var l' := Destroy(l, o);
    assert l'.orms == l.orms - (l.orms.Keys - l'.orms.Keys);
    hide OwnedLoaded, AllOwned;
    OwnedFewer(l, l');
  }

  lemma RetireFewer(l: Lives, h: Addr)
    requires OwnedLoaded(l) && h in l.handles
    ensures OwnedLoaded(Retire(l, h)) && (AllOwned(l) ==> AllOwned(Retire(l, h)))
  {
    var l' := Retire(l, h);
    assert l'.orms == l.orms - (l.orms.Keys - l'.orms.Keys);
    hide OwnedLoaded, AllOwned;
    OwnedFewer(l, l');
  }

  lemma ChangeOwned(s: State, o: Addr, layout: Layout)
    requires Enabled(s, ChangeOrm(o, layout))
    ensures AllOwned(s.lives) && OwnerBinds(s, ChangeOrm(o, layout)) ==> AllOwned(Change(s.lives, o, layout))
  {
    hide Variables;
    if AllOwned(s.lives) && OwnerBinds(s, ChangeOrm(o, layout)) {
      var l' := Change(s.lives, o, layout);
      forall p, v | p in l'.orms && v in Variables(l'.orms[p].layout) ensures Owned(l'.orms[p], v) {
        assert v in Variables(s.lives.orms[p].layout) ==> Owned(s.lives.orms[p], v);
      }
    }
  }

  // ---------------------------------------------------------------------------
  // Whole runs

  ghost predicate NoReloads(steps: seq<Step>) {
    forall n :: 0 <= n < |steps| ==> NoReloadAt(steps, n)
  }

  predicate NoReloadAt(steps: seq<Step>, n: nat)
    requires n < |steps|
  {
    Enabled(After(steps[..n]), steps[n]) ==> NoReload(After(steps[..n]), steps[n])
  }

  ghost predicate OwnersBind(steps: seq<Step>) {
    forall n :: 0 <= n < |steps| ==> OwnerBindsAt(steps, n)
  }

  predicate OwnerBindsAt(steps: seq<Step>, n: nat)
    requires n < |steps|
  {
    Enabled(After(steps[..n]), steps[n]) ==> OwnerBinds(After(steps[..n]), steps[n])
  }

  lemma ShorterRun(steps: seq<Step>, init: seq<Step>)
    requires steps != [] && init == steps[..|steps| - 1]
    ensures NoReloads(steps) ==> NoReloads(init) && NoReloadAt(steps, |init|)
    ensures OwnersBind(steps) ==> OwnersBind(init) && OwnerBindsAt(steps, |init|)
  {
    forall n: nat | n < |init| ensures NoReloadAt(steps, n) == NoReloadAt(init, n)
                                       && OwnerBindsAt(steps, n) == OwnerBindsAt(init, n) {
      hide After, Enabled, NoReload, OwnerBinds;
      assert steps[..n] == init[..n] && steps[n] == init[n];
    }
    hide NoReloadAt, OwnerBindsAt;
  }

  /** In every run without reloads, an owner's variables are loaded; if owners alone bind variables, all are owned. */
  lemma {:induction false} OwnedAlways(steps: seq<Step>)
    requires NoReloads(steps)
    ensures OwnedLoaded(After(steps).lives)
    ensures OwnersBind(steps) ==> AllOwned(After(steps).lives)
  {
    if steps == [] {
      hide Enabled, Next;
    } else {
      var init, t := steps[..|steps| - 1], steps[|steps| - 1];
      ShorterRun(steps, init);
      OwnedAlways(init);
      assert steps[..|init|] == init && steps[|init|] == t;
      if Enabled(After(init), t) {
        AfterLast(steps, init);
        OwnedStep(After(init), t);
      } else {
        NotTaken(steps, init);
      }
      hide After, Enabled, Next, OwnedLoaded, AllOwned, OwnersBind, NoReloads;
    }
  }

  lemma NotTaken(steps: seq<Step>, init: seq<Step>)
    requires steps != [] && init == steps[..|steps| - 1] && !Enabled(After(init), steps[|steps| - 1])
    ensures After(steps) == After(init)
  {
    hide Enabled;
  }

  /** Whatever a step uses is a variable of some ORM. */
  lemma UsesVariables(s: State, t: Step, v: BoundVariable)
    requires Enabled(s, t) && v in Uses(s, t)
    ensures exists o :: o in s.lives.orms && v in Variables(s.lives.orms[o].layout)
  {
    hide Cancelled;
    match t {
      case UseOrm(o, _) => assert v in Variables(s.lives.orms[o].layout);
      case IssueOrm(o, _, _, _) => assert v in Variables(s.lives.orms[o].layout);
      case Dispatch(_, _) =>
        var o := s.queries[s.tick.query].target.value;
        assert v in Variables(s.lives.orms[o].layout);
    }
  }

  /** If only owners bind variables, no run touches the memory of a script that has ended. */
  lemma OwnersNeverStray(steps: seq<Step>)
    requires NoReloads(steps) && OwnersBind(steps)
    ensures !After(steps).log.stray
  {
    StraysExactly(steps);
    if n: nat :| n < |steps| && StraysAt(steps, n) {
      var init := steps[..n];
      PrefixRun(steps, n);
      OwnedAlways(init);
      hide After, NoReloads, OwnersBind;
      var s := After(init);
      var v :| v in Uses(s, steps[n]) && !Loaded(s.lives, v);
      UsesVariables(s, steps[n], v);
      assert false;
    }
  }

  lemma PrefixRun(steps: seq<Step>, n: nat)
    requires NoReloads(steps) && OwnersBind(steps) && n <= |steps|
    ensures NoReloads(steps[..n]) && OwnersBind(steps[..n])
  {
    var init := steps[..n];
    forall k: nat | k < |init| ensures NoReloadAt(init, k) && OwnerBindsAt(init, k) {
      assert NoReloadAt(steps, k) && OwnerBindsAt(steps, k);
      hide After, Enabled, NoReload, OwnerBinds;
      assert steps[..k] == init[..k] && steps[k] == init[k];
    }
  }

  // ---------------------------------------------------------------------------
  // Variables of other scripts

  lemma AfterTwo(steps: seq<Step>, t: Step, u: Step)
    requires Enabled(After(steps), t) && Enabled(Next(After(steps), t), u)
    ensures After(steps + [t, u]) == Next(Next(After(steps), t), u)
  {
    hide After, Enabled, Next;
    AfterMore(steps, t);
    AfterMore(steps + [t], u);
    assert steps + [t] + [u] == steps + [t, u];
  }

  /** A script that has bound a variable to another script's ORM ends, and the ORM is used: its memory is touched. */
  lemma ForeignStrays(steps: seq<Step>, o: Addr, v: BoundVariable)
    requires ScriptRuns(After(steps)) && !After(steps).log.stray && o in After(steps).lives.orms
    requires v in Variables(After(steps).lives.orms[o].layout) && !Owned(After(steps).lives.orms[o], v)
    ensures After(steps + [UnloadScript(v.amx), UseOrm(o, {v})]).log.stray
  {
    var s := After(steps);
    Places.NoFault(steps);
    var t, u := UnloadScript(v.amx), UseOrm(o, {v});
    hide After, Variables;
    var s1 := Next(s, t);
    assert o in s1.lives.orms && !Loaded(s1.lives, v) && v in {v};
    AfterTwo(steps, t, u);
  }

  /** The continuation reloads no script, and lets only owners bind variables. */
  ghost predicate Honest(steps: seq<Step>, more: seq<Step>) {
    forall n :: |steps| <= n < |steps + more| ==> NoReloadAt(steps + more, n) && OwnerBindsAt(steps + more, n)
  }

  lemma ShorterHonest(steps: seq<Step>, more: seq<Step>, init: seq<Step>)
    requires more != [] && init == more[..|more| - 1] && Honest(steps, more)
    ensures Honest(steps, init)
    ensures var s, t := After(steps + init), more[|more| - 1]; Enabled(s, t) ==> NoReload(s, t) && OwnerBinds(s, t)
  {
    var run, k := steps + more, |steps + init|;
    hide After, Enabled, NoReload, OwnerBinds;
    forall n | |steps| <= n < k ensures NoReloadAt(steps + init, n) && OwnerBindsAt(steps + init, n) {
      assert run[..n] == (steps + init)[..n] && run[n] == (steps + init)[n];
      assert NoReloadAt(run, n) && OwnerBindsAt(run, n);
    }
    assert run[..k] == steps + init && run[k] == more[|more| - 1];
    assert NoReloadAt(run, k) && OwnerBindsAt(run, k);
  }

  lemma OwnedUses(s: State, t: Step)
    requires Enabled(s, t) && OwnedLoaded(s.lives) && AllOwned(s.lives)
    ensures UsesLoaded(s, t)
  {
    hide Uses, Enabled, Variables, Loaded;
    forall v | v in Uses(s, t) ensures Loaded(s.lives, v) {
      UsesVariables(s, t, v);
    }
  }

  lemma {:induction false} HonestKeeps(steps: seq<Step>, more: seq<Step>)
    requires NoReloads(steps) && AllOwned(After(steps).lives) && !After(steps).log.stray && Honest(steps, more)
    ensures var s := After(steps + more); OwnedLoaded(s.lives) && AllOwned(s.lives) && !s.log.stray
  {
    hide After, Enabled, Next, NoReloads, OwnedLoaded, AllOwned, Honest, UsesLoaded;
    if more == [] {
      OwnedAlways(steps);
      assert steps + more == steps;
    } else {
      var init, t := more[..|more| - 1], more[|more| - 1];
      ShorterHonest(steps, more, init);
      HonestKeeps(steps, init);
      var s := After(steps + init);
      Places.AfterStep(steps, init, more);
      Places.NoFault(steps + more);
      if Enabled(s, t) {
        OwnedStep(s, t);
        OwnedUses(s, t);
        StepStrays(s, t);
      }
    }
  }

  lemma HonestUse(steps: seq<Step>, amx: Addr, o: Addr, used: set<BoundVariable>)
    ensures Honest(steps, [UnloadScript(amx), UseOrm(o, used)])
  {
    var run := steps + [UnloadScript(amx), UseOrm(o, used)];
    forall n | |steps| <= n < |run| ensures NoReloadAt(run, n) && OwnerBindsAt(run, n) {
      hide After, Enabled;
      assert !run[n].LoadScript? && !run[n].ChangeOrm?;
    }
  }

  /** From any state in which scripts run, the run can go on, without another binding by a script that is not the ORM's
      owner, until it touches the memory of a script that has ended, exactly if a variable that is bound now is not its
      ORM's owner's. */
  lemma ForeignExactly(steps: seq<Step>)
    requires NoReloads(steps) && ScriptRuns(After(steps)) && !After(steps).log.stray
    ensures (exists more :: Honest(steps, more) && After(steps + more).log.stray) <==> !AllOwned(After(steps).lives)
  {
    if AllOwned(After(steps).lives) {
      forall more | Honest(steps, more) ensures !After(steps + more).log.stray {
        HonestKeeps(steps, more);
      }
    } else {
      var l := After(steps).lives;
      hide After, ScriptRuns, Variables, Owned, Honest, NoReloads;
      var o, v :| o in l.orms && v in Variables(l.orms[o].layout) && !Owned(l.orms[o], v);
      ForeignStrays(steps, o, v);
      HonestUse(steps, v.amx, o, {v});
    }
  }

  /** The end of a script does not cancel a query of another script and its ORM. */
  lemma UnloadCancels(s: State, x: Query, amx: Addr)
    requires Tokens.TokensHeld(s.lives) && Tokens.Bound(s.lives, x) && !Cancelled(s, x)
    requires x.binding.Some? && x.owner != amx
    requires x.binding.value.orm in s.lives.orms && s.lives.orms[x.binding.value.orm].owner != amx
             && s.lives.orms[x.binding.value.orm].lifetime == x.binding.value.lifetime
    ensures !Cancelled(s.(lives := Unload(s.lives, amx)), x)
  {
    var l := s.lives;
    var gone := set o | o in l.orms && l.orms[o].owner == amx;
    assert l.alive[x.script.value] == OfScript(x.owner);
    assert l.alive[x.binding.value.lifetime] == OfOrm(x.binding.value.orm);
    forall o | o in gone ensures l.alive[l.orms[o].lifetime] == OfOrm(o) && o != x.binding.value.orm {
    }
    assert amx in l.scripts ==> l.alive[l.scripts[amx]] == OfScript(amx);
  }

  /** A SELECT of one script, waiting to be applied to its ORM, is not cancelled by the end of another script that has
      bound a variable to that ORM: the next tick writes to that script's memory. */
  lemma PendingStrays(steps: seq<Step>, v: BoundVariable, found: bool)
    requires var s := After(steps);
             && s.main.Free? && s.tick.NoTick? && !s.log.stray && s.callbacks != [] && s.callbacks[0] in s.queries
             && var x := s.queries[s.callbacks[0]];
                && !Cancelled(s, x) && x.owner != v.amx && x.target.Some? && x.binding.Some?
                && x.binding.value.kind == Select && x.target.value in s.lives.orms
                && v in s.lives.orms[x.target.value].layout.vars && s.lives.orms[x.target.value].owner != v.amx
    ensures After(steps + [UnloadScript(v.amx), Pop, Dispatch(found, true)]).log.stray
  {
    var s := After(steps);
    var q := s.callbacks[0];
    var x := s.queries[q];
    Places.NoFault(steps);
    Tokens.TokensAlways(steps);
    hide After, Next, Enabled, Cancelled, Results, Unload, AllLoaded;
    TargetLives(s, x);
    UnloadCancels(s, x, v.amx);
    UnloadPop(s, v.amx);
    AfterTwo(steps, UnloadScript(v.amx), Pop);
    var s2 := After(steps + [UnloadScript(v.amx), Pop]);
    StillWrites(s, s2, x, v);
    LastDispatch(steps + [UnloadScript(v.amx), Pop], q, found);
    assert steps + [UnloadScript(v.amx), Pop] + [Dispatch(found, true)]
           == steps + [UnloadScript(v.amx), Pop, Dispatch(found, true)];
  }

  lemma StillWrites(s: State, s2: State, x: Query, v: BoundVariable)
    requires s2.lives == Unload(s.lives, v.amx) && !Cancelled(s.(lives := s2.lives), x)
    requires x.target.Some? && x.binding.Some? && x.binding.value.kind == Select && x.target.value in s.lives.orms
    requires v in s.lives.orms[x.target.value].layout.vars && s.lives.orms[x.target.value].owner != v.amx
    ensures !AllLoaded(s2.lives, Results(s2, x))
  {
    assert x.target.value in s2.lives.orms && !Loaded(s2.lives, v) && v in Results(s2, x);
  }

  lemma UnloadPop(s: State, amx: Addr)
    requires s.main.Free? && s.tick.NoTick? && !s.fault && !s.log.stray && s.callbacks != []
    ensures Enabled(s, UnloadScript(amx)) && Enabled(Next(s, UnloadScript(amx)), Pop)
    ensures Next(Next(s, UnloadScript(amx)), Pop)
            == s.(lives := Unload(s.lives, amx), callbacks := s.callbacks[1..], tick := Taken(s.callbacks[0]))
  {
    hide Unload;
  }

  /** A live query's target is the ORM whose lifetime it keeps. */
  lemma TargetLives(s: State, x: Query)
    requires Tokens.TokensHeld(s.lives) && Tokens.Bound(s.lives, x) && !Cancelled(s, x) && x.target.Some?
    ensures x.binding.Some? && x.target.value == x.binding.value.orm && x.target.value in s.lives.orms
    ensures s.lives.orms[x.target.value].lifetime == x.binding.value.lifetime
  {
  }

  lemma LastDispatch(steps: seq<Step>, q: QueryId, found: bool)
    requires After(steps).tick == Taken(q) && !After(steps).log.stray && q in After(steps).queries
    requires !AllLoaded(After(steps).lives, Results(After(steps), After(steps).queries[q]))
    ensures After(steps + [Dispatch(found, true)]).log.stray
  {
    Places.NoFault(steps);
    Places.NoFault(steps + [Dispatch(found, true)]);
    var s := After(steps);
    hide After, Results, NextDispatch;
    AfterMore(steps, Dispatch(found, true));
    DispatchStrays(s, q, found, true);
  }

  // ---------------------------------------------------------------------------
  // A run that fails

  const KILLS := BoundVariable("kills", false, 2, 1)

  /** Script 2 binds its variable to the ORM of script 1. */
  function Bind(): seq<Step> {
    [LoadScript(1), LoadScript(2), Connect(0, 0), CreateOrm(0, 0, 1), ChangeOrm(0, Layout([KILLS], None))]
  }

  /** The lives after the steps of `Bind` one by one. */
  function BindLives(): Lives {
    var l := NewHandle(Load(Load(Init().lives, 1), 2), 0);
    Change(NewOrm(l, 0, 0, 1, NO_VARIABLES), 0, Layout([KILLS], None))
  }

  lemma BindBound()
    ensures var l := BindLives();
            0 in l.orms && l.orms[0].layout == Layout([KILLS], None) && l.orms[0].owner == 1
  {
  }

  lemma ScriptsLoad()
    ensures After(Bind()[..2]) == Init().(lives := Load(Load(Init().lives, 1), 2))
  {
    assert After([]) == Init();
    var s1 := Next(Init(), LoadScript(1));
    assert Enabled(Init(), LoadScript(1)) && Enabled(s1, LoadScript(2));
    hide After, Load;
    AfterTwo([], LoadScript(1), LoadScript(2));
    assert [] + [LoadScript(1), LoadScript(2)] == Bind()[..2];
  }

  lemma OrmCreated()
    ensures var l, s := NewHandle(Load(Load(Init().lives, 1), 2), 0), After(Bind()[..4]);
            s.lives == NewOrm(l, 0, 0, 1, NO_VARIABLES) && ScriptRuns(s) && !s.fault && !s.log.stray
  {
    ScriptsLoad();
    var s := After(Bind()[..2]);
    hide After, Load, NewOrm;
    AfterTwo(Bind()[..2], Connect(0, 0), CreateOrm(0, 0, 1));
    assert Bind()[..2] + [Connect(0, 0), CreateOrm(0, 0, 1)] == Bind()[..4];
  }

  lemma BindRuns()
    ensures After(Bind()).lives == BindLives() && ScriptRuns(After(Bind())) && !After(Bind()).log.stray
  {
    OrmCreated();
    var s, layout := After(Bind()[..4]), Layout([KILLS], None);
    CanBind(s.lives, layout);
    hide After, BindLives, NewOrm, NewHandle, Load, Rebinds;
    AfterMore(Bind()[..4], ChangeOrm(0, layout));
    assert Bind()[..4] + [ChangeOrm(0, layout)] == Bind();
    assert BindLives() == Change(s.lives, 0, layout) by {
      IsBindLives();
    }
  }

  lemma IsBindLives()
    ensures var l := NewOrm(NewHandle(Load(Load(Init().lives, 1), 2), 0), 0, 0, 1, NO_VARIABLES);
            0 in l.orms && BindLives() == Change(l, 0, Layout([KILLS], None))
  {
    hide NewHandle, Load;
  }

  lemma CanBind(l: Lives, layout: Layout)
    requires l == NewOrm(NewHandle(Load(Load(Init().lives, 1), 2), 0), 0, 0, 1, NO_VARIABLES)
    requires layout == Layout([KILLS], None)
    ensures 0 in l.orms && Rebinds(l, 0, layout)
  {
  }

  /** Then script 2 ends, and script 1 uses its ORM. */
  lemma ForeignRun()
    ensures After(Bind() + [UnloadScript(2), UseOrm(0, {KILLS})]).log.stray
  {
    BindRuns();
    BindBound();
    hide After, Bind, BindLives;
    assert KILLS in Layout([KILLS], None).vars;
    ForeignStrays(Bind(), 0, KILLS);
  }
}
