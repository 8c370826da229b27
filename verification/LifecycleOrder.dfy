/** The order of callbacks: as long as no handle is closed, the public functions of one connection's queries run in the
    order in which the connection accepted the queries. */
module LifecycleOrder {
  import opened Wrappers
  import opened Lifecycle
  import opened LifecycleHandles
  import Places = LifecyclePlaces
  import Tokens = LifecycleTokens

  ghost predicate Increasing(qs: seq<QueryId>) {
    forall i, j :: 0 <= i < j < |qs| ==> qs[i] < qs[j]
  }

  /** Those of the queries that were made for the connection. */
  function On(lanes: map<QueryId, Lane>, qs: seq<QueryId>, l: Lane): seq<QueryId> {
    if qs == [] then []
    else On(lanes, qs[..|qs| - 1], l) + OnOne(lanes, qs[|qs| - 1], l)
  }

  function OnOne(lanes: map<QueryId, Lane>, q: QueryId, l: Lane): seq<QueryId> {
    if q in lanes && lanes[q] == l then [q] else []
  }

  function RunIds(runs: seq<Run>): seq<QueryId> {
    seq(|runs|, i requires 0 <= i < |runs| => runs[i].query)
  }

  function TickIds(t: Tick): seq<QueryId> {
    if t.Taken? then [t.query] else []
  }

  function WorkerIds(w: Worker): seq<QueryId> {
    if w.Executing? || w.Executed? then [w.query] else []
  }

  function ConnIds(c: Conn): seq<QueryId> {
    WorkerIds(c.worker) + c.queue
  }

  function LaneIds(s: State, l: Lane): seq<QueryId> {
    if HasConn(s, l.handle, l.conn) then ConnIds(ConnAt(s, l.handle, l.conn)) else []
  }

  function CreatedIds(s: State): seq<QueryId> {
    if s.main.Created? then [s.main.query] else []
  }

  /** What has left the connections: run, taken by the tick, waiting for it. */
  function Outgoing(s: State): seq<QueryId> {
    RunIds(s.log.runs) + TickIds(s.tick) + s.callbacks
  }

  /** A connection's queries from the first that ran to the one being issued. */
  function Line(s: State, l: Lane): seq<QueryId> {
    On(s.log.lanes, Outgoing(s), l) + LaneIds(s, l) + On(s.log.lanes, CreatedIds(s), l)
  }

  ghost predicate InOrderInv(s: State) {
    !s.log.closed ==>
      && !IsClosing(s.main) && !s.main.Sweeping? && !s.main.Restoring?
      && forall l :: Increasing(Line(s, l))
  }

  /** Every query was accepted by its connection, except the one being issued. */
  ghost predicate SubmittedInv(s: State) {
    && Increasing(s.log.submitted)
    && (forall q :: q in s.log.submitted ==> q < s.born)
    && (s.main.Created? ==> s.main.query == s.born - 1 && s.main.query !in s.log.submitted)
    && (forall q :: q in s.queries ==> q in s.log.submitted || s.main == Created(q))
    && (forall i :: 0 <= i < |s.log.runs| ==> s.log.runs[i].query in s.log.submitted)
    && (forall q :: q in s.log.submitted ==> q in s.log.lanes)
  }

  // ---------------------------------------------------------------------------
  // Lines

  lemma {:induction false} OnConcat(lanes: map<QueryId, Lane>, a: seq<QueryId>, b: seq<QueryId>, l: Lane)
    ensures On(lanes, a + b, l) == On(lanes, a, l) + On(lanes, b, l)
  {
    if b == [] {
      assert a + b == a;
    } else {
      assert (a + b)[..|a + b| - 1] == a + b[..|b| - 1];
      OnConcat(lanes, a, b[..|b| - 1], l);
    }
  }

  lemma OnSingle(lanes: map<QueryId, Lane>, q: QueryId, l: Lane)
    ensures On(lanes, [q], l) == OnOne(lanes, q, l)
  {
    assert [q][..0] == [];
  }

  lemma {:induction false} OnMore(lanes: map<QueryId, Lane>, qs: seq<QueryId>, l: Lane, x: QueryId, k: Lane)
    requires x !in qs
    ensures On(lanes[x := k], qs, l) == On(lanes, qs, l)
  {
    if qs != [] {
      OnMore(lanes, qs[..|qs| - 1], l, x, k);
    }
  }

  lemma {:induction false} OnFrom(lanes: map<QueryId, Lane>, qs: seq<QueryId>, l: Lane, q: QueryId)
    requires q in On(lanes, qs, l)
    ensures q in qs
  {
    if q in On(lanes, qs[..|qs| - 1], l) {
      OnFrom(lanes, qs[..|qs| - 1], l, q);
    }
  }

  lemma RemoveOne(a: seq<QueryId>, x: seq<QueryId>, b: seq<QueryId>)
    requires |x| <= 1 && Increasing(a + x + b)
    ensures Increasing(a + b)
  {
    forall i, j | 0 <= i < j < |a + b| ensures (a + b)[i] < (a + b)[j] {
      var i', j' := if i < |a| then i else i + |x|, if j < |a| then j else j + |x|;
      assert (a + x + b)[i'] == (a + b)[i] && (a + x + b)[j'] == (a + b)[j];
    }
  }

  lemma AppendOne(a: seq<QueryId>, x: QueryId)
    requires Increasing(a) && forall i :: 0 <= i < |a| ==> a[i] < x
    ensures Increasing(a + [x])
  {
  }

  // ---------------------------------------------------------------------------
  // Steps that move a query along its line

  lemma SameLines(s: State, s': State)
    requires InOrderInv(s) && s'.log.closed == s.log.closed
    requires !IsClosing(s.main) && !s.main.Sweeping? && !s.main.Restoring? ==>
               !IsClosing(s'.main) && !s'.main.Sweeping? && !s'.main.Restoring?
    requires !s.log.closed ==> forall l :: Line(s', l) == Line(s, l)
    ensures InOrderInv(s')
  {
    hide Line;
    if !s'.log.closed {
      forall l ensures Increasing(Line(s', l)) {
        assert Line(s', l) == Line(s, l);
        assert Increasing(Line(s, l));
      }
    }
  }

  /** A change of one connection shows on its own line only. */
  lemma SetConnLane(s: State, h: Addr, i: nat, c: Conn, l: Lane)
    requires HasConn(s, h, i)
    ensures LaneIds(SetConn(s, h, i, c), l) == if l == Lane(h, i) then ConnIds(c) else LaneIds(s, l)
  {
    hide ConnIds;
  }

  lemma TakeLine(s: State, h: Addr, i: nat, l: Lane)
    requires Enabled(s, Take(h, i))
    ensures Line(NextTake(s, h, i), l) == Line(s, l)
  {
    var c := ConnAt(s, h, i);
    var c' := c.(queue := c.queue[1..], worker := Executing(c.queue[0]));
    assert ConnIds(c') == ConnIds(c);
    SetConnLane(s, h, i, c', l);
    hide On, RunIds, ConnIds;
  }

  lemma ExecuteLine(s: State, h: Addr, i: nat, outcome: Outcome, l: Lane)
    requires Enabled(s, Execute(h, i, outcome))
    ensures Line(NextExecute(s, h, i, outcome), l) == Line(s, l)
  {
    hide On, Outgoing, LaneIds, NextExecute;
    ExecuteFrame(s, h, i, outcome);
    SameOutgoing(s, NextExecute(s, h, i, outcome));
    ExecuteLane(s, h, i, outcome, l);
  }

  lemma ExecuteLane(s: State, h: Addr, i: nat, outcome: Outcome, l: Lane)
    requires Enabled(s, Execute(h, i, outcome))
    ensures LaneIds(NextExecute(s, h, i, outcome), l) == LaneIds(s, l)
  {
  }

  /** A query goes from the worker to the end of the callback queue. */
  lemma DeliveredLine(s: State, h: Addr, i: nat, l: Lane)
    requires Enabled(s, Deliver(h, i)) && Places.Labelled(s, ConnAt(s, h, i).worker.query, h, i)
    ensures var c := ConnAt(s, h, i);
            Line(SetConn(s, h, i, c.(worker := Idle)).(callbacks := s.callbacks + [c.worker.query]), l) == Line(s, l)
  {
    hide On, Outgoing, SetConn, ConnIds;
    var c := ConnAt(s, h, i);
    var q, s1 := c.worker.query, SetConn(s, h, i, c.(worker := Idle));
    var s' := s1.(callbacks := s.callbacks + [q]);
    SetConnFrame(s, h, i, c.(worker := Idle));
    OutgoingMore(s, s', q, l);
    SetConnLane(s, h, i, c.(worker := Idle), l);
    WorkerConnIds(c);
    assert LaneIds(s', l) == LaneIds(s1, l);
    Shift(On(s.log.lanes, Outgoing(s), l), q, c.queue, On(s.log.lanes, CreatedIds(s), l));
    assert On(s.log.lanes, Outgoing(s), l) + [] == On(s.log.lanes, Outgoing(s), l);
  }

  lemma SetConnFrame(s: State, h: Addr, i: nat, c: Conn)
    requires HasConn(s, h, i)
    ensures SetConn(s, h, i, c) == s.(handles := SetConn(s, h, i, c).handles)
  {
  }

  lemma WorkerConnIds(c: Conn)
    requires c.worker.Executed?
    ensures ConnIds(c.(worker := Idle)) == c.queue && ConnIds(c) == [c.worker.query] + c.queue
  {
  }

  lemma OutgoingMore(s: State, s': State, q: QueryId, l: Lane)
    requires s'.log == s.log && s'.tick == s.tick && s'.callbacks == s.callbacks + [q]
    ensures On(s.log.lanes, Outgoing(s'), l) == On(s.log.lanes, Outgoing(s), l) + OnOne(s.log.lanes, q, l)
  {
    hide RunIds, On;
    assert Outgoing(s') == Outgoing(s) + [q];
    OnConcat(s.log.lanes, Outgoing(s), [q], l);
    OnSingle(s.log.lanes, q, l);
  }

  lemma Shift(a: seq<QueryId>, q: QueryId, b: seq<QueryId>, c: seq<QueryId>)
    ensures (a + [q]) + b + c == a + ([q] + b) + c
  {
  }

  lemma PopLine(s: State, l: Lane)
    requires Enabled(s, Pop)
    ensures Line(Next(s, Pop), l) == Line(s, l)
  {
    assert Outgoing(Next(s, Pop)) == Outgoing(s);
    hide On, Outgoing;
  }

  lemma RunsLine(s: State, s': State, run: Run, l: Lane)
    requires s.tick == Taken(run.query) && s'.tick.Running? && s' == s.(tick := s'.tick, log := s'.log)
    requires s'.log == s.log.(runs := s.log.runs + [run], applied := s'.log.applied, stray := s'.log.stray)
    ensures Line(s', l) == Line(s, l)
  {
    assert RunIds(s'.log.runs) == RunIds(s.log.runs) + [run.query];
    hide RunIds, On;
    assert Outgoing(s') == Outgoing(s);
  }

  lemma PushedLine(s: State, s': State, h: Addr, i: nat, q: QueryId, l: Lane)
    requires s.main == Created(q) && s'.main == Pushed(h) && HasConn(s, h, i) && Places.Labelled(s, q, h, i)
    requires s' == SetConn(s, h, i, ConnAt(s, h, i).(queue := ConnAt(s, h, i).queue + [q]))
                   .(main := s'.main, log := s.log.(submitted := s'.log.submitted))
    ensures Line(s', l) == Line(s, l)
  {
    hide On, SetConn, ConnIds, Outgoing;
    var c := ConnAt(s, h, i);
    var c' := c.(queue := c.queue + [q]);
    SetConnFrame(s, h, i, c');
    SetConnLane(s, h, i, c', l);
    assert LaneIds(s', l) == LaneIds(SetConn(s, h, i, c'), l);
    OnSingle(s.log.lanes, q, l);
    NoneCreated(s', l);
    assert Outgoing(s') == Outgoing(s) by {
      SubmittedOutgoing(s, s');
    }
    QueuedConnIds(c, q);
    PushAssoc(On(s.log.lanes, Outgoing(s), l), ConnIds(c), q);
  }

  lemma SubmittedOutgoing(s: State, s': State)
    requires s'.log.runs == s.log.runs && s'.tick == s.tick && s'.callbacks == s.callbacks
    ensures Outgoing(s') == Outgoing(s)
  {
  }

  lemma NoneCreated(s: State, l: Lane)
    requires !s.main.Created?
    ensures On(s.log.lanes, CreatedIds(s), l) == []
  {
  }

  lemma QueuedConnIds(c: Conn, q: QueryId)
    ensures ConnIds(c.(queue := c.queue + [q])) == ConnIds(c) + [q]
  {
  }

  lemma PushAssoc(a: seq<QueryId>, b: seq<QueryId>, q: QueryId)
    ensures a + (b + [q]) + [] == a + b + [q]
  {
  }

  lemma ConnectLine(s: State, h: Addr, pool: nat, l: Lane)
    requires Enabled(s, Connect(h, pool))
    ensures Line(NextConnect(s, h, pool), l) == Line(s, l)
  {
    hide On, RunIds;
  }

  // ---------------------------------------------------------------------------
  // Steps that add one or drop one

  /** Only the last of a line, or none. */
  lemma CreatedDropped(s: State, s': State, l: Lane)
    requires s.main.Created? && s'.main.Free? && Increasing(Line(s, l))
    requires s' == s.(queries := s'.queries, main := s'.main)
    ensures Increasing(Line(s', l))
  {
    OnSingle(s.log.lanes, s.main.query, l);
    assert On(s'.log.lanes, CreatedIds(s'), l) == [];
    assert Line(s', l) == On(s.log.lanes, Outgoing(s), l) + LaneIds(s, l) + [];
    hide On, Outgoing, LaneIds;
    var a := On(s.log.lanes, Outgoing(s), l) + LaneIds(s, l);
    assert Line(s, l) == a + OnOne(s.log.lanes, s.main.query, l) + [];
    RemoveOne(a, OnOne(s.log.lanes, s.main.query, l), []);
  }

  lemma WorkerDropped(s: State, h: Addr, i: nat, queries: map<QueryId, Query>, l: Lane)
    requires Enabled(s, Deliver(h, i)) && Increasing(Line(s, l))
    ensures Increasing(Line(SetConn(s, h, i, ConnAt(s, h, i).(worker := Idle)).(queries := queries), l))
  {
    hide On, Outgoing, SetConn, ConnIds;
    var c := ConnAt(s, h, i);
    var s1 := SetConn(s, h, i, c.(worker := Idle));
    var s' := s1.(queries := queries);
    SetConnFrame(s, h, i, c.(worker := Idle));
    SameOutgoing(s, s');
    SetConnLane(s, h, i, c.(worker := Idle), l);
    WorkerConnIds(c);
    assert LaneIds(s', l) == LaneIds(s1, l);
    if l == Lane(h, i) {
      LoseOne(On(s.log.lanes, Outgoing(s), l), c.worker.query, c.queue, On(s.log.lanes, CreatedIds(s), l));
    }
  }

  lemma SameOutgoing(s: State, s': State)
    requires s'.log == s.log && s'.tick == s.tick && s'.callbacks == s.callbacks
    ensures Outgoing(s') == Outgoing(s)
  {
  }

  lemma LoseOne(a: seq<QueryId>, q: QueryId, b: seq<QueryId>, c: seq<QueryId>)
    requires Increasing(a + ([q] + b) + c)
    ensures Increasing(a + b + c)
  {
    assert a + ([q] + b) + c == a + [q] + (b + c);
    RemoveOne(a, [q], b + c);
    assert a + b + c == a + (b + c);
  }

  lemma TickOutgoing(s: State, s': State)
    requires s.tick.Taken? && s'.tick.NoTick? && s'.log.runs == s.log.runs && s'.callbacks == s.callbacks
    ensures Outgoing(s) == RunIds(s.log.runs) + [s.tick.query] + s.callbacks
    ensures Outgoing(s') == RunIds(s.log.runs) + s.callbacks
  {
  }

  lemma TickDropped(s: State, s': State, l: Lane)
    requires s.tick.Taken? && s'.tick.NoTick? && Increasing(Line(s, l))
    requires s' == s.(queries := s'.queries, tick := s'.tick, log := s.log.(applied := s'.log.applied,
                      stray := s'.log.stray))
    ensures Increasing(Line(s', l))
  {
    hide On, Outgoing, RunIds, Increasing;
    var lanes, runs, q := s.log.lanes, RunIds(s.log.runs), s.tick.query;
    OnSingle(lanes, q, l);
    OnConcat(lanes, runs + [q], s.callbacks, l);
    OnConcat(lanes, runs, [q], l);
    OnConcat(lanes, runs, s.callbacks, l);
    TickOutgoing(s, s');
    LoseMiddle(On(lanes, runs, l), OnOne(lanes, q, l), On(lanes, s.callbacks, l), LaneIds(s, l),
               On(lanes, CreatedIds(s), l));
  }

  lemma LoseMiddle(a: seq<QueryId>, x: seq<QueryId>, b: seq<QueryId>, c: seq<QueryId>, d: seq<QueryId>)
    requires |x| <= 1 && Increasing(a + x + b + c + d)
    ensures Increasing(a + b + c + d)
  {
    assert a + x + b + c + d == a + x + (b + c + d);
    RemoveOne(a, x, b + c + d);
    assert a + b + c + d == a + (b + c + d);
  }

  /** Everything on a line was born before the query that joins it. */
  lemma LineBorn(s: State, l: Lane, q: QueryId)
    requires Places.PlaceInv(s) && SubmittedInv(s) && q in Line(s, l)
    ensures q < s.born
  {
    if q in On(s.log.lanes, Outgoing(s), l) {
      OnFrom(s.log.lanes, Outgoing(s), l, q);
      OutgoingBorn(s, q);
    } else if q in LaneIds(s, l) {
      Places.LabelledAt(s, l.handle, l.conn);
    } else {
      OnFrom(s.log.lanes, CreatedIds(s), l, q);
    }
  }

  lemma OutgoingBorn(s: State, q: QueryId)
    requires Places.PlaceInv(s) && SubmittedInv(s) && q in Outgoing(s)
    ensures q < s.born
  {
    if q in RunIds(s.log.runs) {
    } else {
      assert Places.Count(s, q) > 0;
      Places.Somewhere(s, q);
    }
  }

  lemma IssuedLine(s: State, h: Addr, conn: nat, amx: Addr, binding: Option<Binding>, callback: string, l: Lane)
    requires Places.PlaceInv(s) && SubmittedInv(s) && s.main.Free? && h in s.lives.handles && Increasing(Line(s, l))
    ensures Increasing(Line(NextIssue(s, h, conn, amx, binding, callback), l))
  {
    var s', q := NextIssue(s, h, conn, amx, binding, callback), s.born;
    if q in Outgoing(s) {
      OutgoingBorn(s, q);
    }
    OnMore(s.log.lanes, Outgoing(s), l, q, Lane(h, conn));
    assert On(s.log.lanes, CreatedIds(s), l) == [];
    OnSingle(s'.log.lanes, q, l);
    assert Outgoing(s') == Outgoing(s);
    forall i | 0 <= i < |Line(s, l)| ensures Line(s, l)[i] < q {
      LineBorn(s, l, Line(s, l)[i]);
    }
    hide On, Outgoing, LaneIds;
    assert LaneIds(s', l) == LaneIds(s, l) by {
      IssuedLane(s, h, conn, amx, binding, callback, l);
    }
    assert Line(s, l) == On(s.log.lanes, Outgoing(s), l) + LaneIds(s, l);
    assert Line(s', l) == Line(s, l) + OnOne(s'.log.lanes, q, l);
    assert Line(s, l) + [] == Line(s, l);
    AppendOne(Line(s, l), q);
  }

  lemma IssuedLane(s: State, h: Addr, conn: nat, amx: Addr, binding: Option<Binding>, callback: string, l: Lane)
    requires h in s.lives.handles
    ensures LaneIds(NextIssue(s, h, conn, amx, binding, callback), l) == LaneIds(s, l)
  {
  }

  // ---------------------------------------------------------------------------
  // Every step

  lemma StillLines(s: State, s': State)
    requires InOrderInv(s)
    requires s' == s.(lives := s'.lives, queries := s'.queries, main := s'.main, tick := s'.tick,
                      log := s.log.(stray := s'.log.stray))
    requires CreatedIds(s') == CreatedIds(s) && TickIds(s'.tick) == TickIds(s.tick)
    requires !IsClosing(s.main) && !s.main.Sweeping? && !s.main.Restoring? ==>
               !IsClosing(s'.main) && !s'.main.Sweeping? && !s'.main.Restoring?
    ensures InOrderInv(s')
  {
    hide On, RunIds, LaneIds;
    forall l ensures Line(s', l) == Line(s, l) {
      assert LaneIds(s', l) == LaneIds(s, l) by {
        StillLane(s, s', l);
      }
    }
    hide Line;
    SameLines(s, s');
  }

  lemma StillLane(s: State, s': State, l: Lane)
    requires s'.handles == s.handles
    ensures LaneIds(s', l) == LaneIds(s, l)
  {
  }

  lemma WorkerOrder(s: State, t: Step)
    requires InOrderInv(s) && Places.PlaceInv(s) && Enabled(s, t)
    requires t.Take? || t.Execute? || t.Deliver? || t.Exit?
    ensures InOrderInv(Next(s, t))
  {
    hide Line, InOrderInv, NextTake, NextExecute, NextDeliver, SetConn, Places.PlaceInv;
    var s' := Next(s, t);
    match t {
      case Take(h, i) =>
        forall l ensures Line(s', l) == Line(s, l) { TakeLine(s, h, i, l); }
        TakeFrame(s, h, i);
        SameLines(s, s');
      case Execute(h, i, outcome) =>
        forall l ensures Line(s', l) == Line(s, l) { ExecuteLine(s, h, i, outcome, l); }
        ExecuteFrame(s, h, i, outcome);
        SameLines(s, s');
      case Deliver(h, i) => DeliverOrder(s, h, i);
      case Exit(h, i) =>
        forall l ensures Line(s', l) == Line(s, l) { ExitLine(s, h, i, l); }
        ExitFrame(s, h, i);
        SameLines(s, s');
    }
  }

  lemma TakeFrame(s: State, h: Addr, i: nat)
    requires Enabled(s, Take(h, i))
    ensures NextTake(s, h, i).main == s.main && NextTake(s, h, i).log == s.log
  {
  }

  lemma ExecuteFrame(s: State, h: Addr, i: nat, outcome: Outcome)
    requires Enabled(s, Execute(h, i, outcome))
    ensures var s' := NextExecute(s, h, i, outcome);
            s'.main == s.main && s'.log == s.log && s'.tick == s.tick && s'.callbacks == s.callbacks
  {
  }

  lemma ExitFrame(s: State, h: Addr, i: nat)
    requires Enabled(s, Exit(h, i))
    ensures Next(s, Exit(h, i)).main == s.main && Next(s, Exit(h, i)).log == s.log
  {
  }

  lemma ExitLine(s: State, h: Addr, i: nat, l: Lane)
    requires Enabled(s, Exit(h, i))
    ensures Line(Next(s, Exit(h, i)), l) == Line(s, l)
  {
    var c := ConnAt(s, h, i);
    assert ConnIds(c.(worker := Exited)) == ConnIds(c);
    SetConnLane(s, h, i, c.(worker := Exited), l);
    hide On, RunIds, ConnIds;
  }

  lemma DeliverOrder(s: State, h: Addr, i: nat)
    requires InOrderInv(s) && Places.PlaceInv(s) && Enabled(s, Deliver(h, i))
    ensures InOrderInv(NextDeliver(s, h, i))
  {
    Places.BusyQuery(s, h, i);
    hide Line, Places.PlaceInv;
    var s' := NextDeliver(s, h, i);
    if |s.callbacks| < CALLBACK_CAPACITY {
      forall l ensures Line(s', l) == Line(s, l) { DeliveredLine(s, h, i, l); }
      SameLines(s, s');
    } else if !s.log.closed {
      var queries := s.queries - {ConnAt(s, h, i).worker.query};
      assert s' == SetConn(s, h, i, ConnAt(s, h, i).(worker := Idle)).(queries := queries);
      forall l ensures Increasing(Line(s', l)) {
        assert Increasing(Line(s, l));
        WorkerDropped(s, h, i, queries, l);
      }
    }
  }

  lemma PushOrder(s: State, q: QueryId)
    requires InOrderInv(s) && Places.PlaceInv(s) && s.main == Created(q)
    ensures InOrderInv(NextPush(s, q))
  {
    Places.CreatedQuery(s, q);
    hide Line, Places.PlaceInv;
    var s', h, i := NextPush(s, q), s.queries[q].handle, s.queries[q].conn;
    if HasConn(s, h, i) && |ConnAt(s, h, i).queue| < QUEUE_CAPACITY {
      forall l ensures Line(s', l) == Line(s, l) { PushedLine(s, s', h, i, q, l); }
      SameLines(s, s');
    } else if !s.log.closed {
      assert s' == s.(queries := s.queries - {q}, main := Free);
      forall l ensures Increasing(Line(s', l)) {
        assert Increasing(Line(s, l));
        CreatedDropped(s, s', l);
      }
    }
  }

  lemma IssueOrder(s: State, h: Addr, conn: nat, amx: Addr, binding: Option<Binding>, callback: string)
    requires InOrderInv(s) && Places.PlaceInv(s) && SubmittedInv(s) && s.main.Free? && h in s.lives.handles
    ensures InOrderInv(NextIssue(s, h, conn, amx, binding, callback))
  {
    hide Line, Places.PlaceInv, SubmittedInv;
    var s' := NextIssue(s, h, conn, amx, binding, callback);
    if !s'.log.closed {
      forall l ensures Increasing(Line(s', l)) {
        assert Increasing(Line(s, l));
        IssuedLine(s, h, conn, amx, binding, callback, l);
      }
    }
  }

  lemma IssueOrmOrder(s: State, o: Addr, kind: OrmQuery, amx: Addr, callback: string)
    requires InOrderInv(s) && Places.PlaceInv(s) && SubmittedInv(s) && Tokens.TokenInv(s) && s.main.Free?
    requires o in s.lives.orms
    ensures InOrderInv(NextIssueOrm(s, o, kind, amx, callback))
  {
    var orm := s.lives.orms[o];
    assert orm.handle in s.lives.handles;
    hide InOrderInv, Places.PlaceInv, SubmittedInv, Tokens.TokenInv, NextIssue;
    var s1 := Touch(s, Needed(orm.layout, kind));
    StillLines(s, s1);
    Places.LogKeeps(s, s1.log);
    SubmittedSame(s, s1);
    IssueOrder(s1, orm.handle, 0, amx, Some(Binding(o, orm.lifetime, orm.layout, kind)), callback);
  }

  lemma DropOrder(s: State, s': State)
    requires InOrderInv(s) && s.tick.Taken? && s'.tick.NoTick?
    requires s' == s.(queries := s'.queries, tick := s'.tick, log := s.log.(applied := s'.log.applied,
                      stray := s'.log.stray))
    ensures InOrderInv(s')
  {
    hide Line;
    if !s.log.closed {
      forall l ensures Increasing(Line(s', l)) {
        assert Increasing(Line(s, l));
        TickDropped(s, s', l);
      }
    }
  }

  lemma DispatchOrder(s: State, q: QueryId, found: bool, fits: bool)
    requires InOrderInv(s) && Places.PlaceInv(s) && HandleInv(s) && Tokens.TokenInv(s) && s.tick == Taken(q)
    ensures InOrderInv(NextDispatch(s, q, found, fits))
  {
    hide InOrderInv, Places.PlaceInv, HandleInv, Tokens.TokenInv, NowApplied, NowStray;
    Places.TakenQuery(s, q);
    var x, s' := s.queries[q], NextDispatch(s, q, found, fits);
    if Cancelled(s, x) {
      assert s' == s.(queries := s.queries - {q}, tick := NoTick);
      DropOrder(s, s');
    } else {
      Places.TakenBound(s, q);
      if x.callback == "" || !found {
        assert s' == s.(queries := s.queries - {q}, tick := NoTick,
                        log := s.log.(applied := NowApplied(s, q), stray := NowStray(s, q, fits)));
        DropOrder(s, s');
      } else {
        hide Line;
        var run := Run(q, x.script, s.lives.scripts[x.owner]);
        forall l ensures Line(s', l) == Line(s, l) { RunsLine(s, s', run, l); }
        SameLines(s, s');
      }
    }
  }

  lemma ConnectOrder(s: State, h: Addr, pool: nat)
    requires InOrderInv(s) && Enabled(s, Connect(h, pool))
    ensures InOrderInv(NextConnect(s, h, pool))
  {
    hide Line;
    forall l ensures Line(NextConnect(s, h, pool), l) == Line(s, l) { ConnectLine(s, h, pool, l); }
    SameLines(s, NextConnect(s, h, pool));
  }

  lemma PopOrder(s: State)
    requires InOrderInv(s) && Enabled(s, Pop)
    ensures InOrderInv(Next(s, Pop))
  {
    hide Line;
    forall l ensures Line(Next(s, Pop), l) == Line(s, l) { PopLine(s, l); }
    SameLines(s, Next(s, Pop));
  }

  lemma CountOrder(s: State, h: Addr)
    requires InOrderInv(s) && s.main == Pushed(h) && h in s.handles
    ensures InOrderInv(NextCount(s, h))
  {
    hide Line;
    var s' := NextCount(s, h);
    forall l ensures Line(s', l) == Line(s, l) { CountLine(s, h, l); }
    SameLines(s, s');
  }

  lemma CountLine(s: State, h: Addr, l: Lane)
    requires s.main == Pushed(h) && h in s.handles
    ensures Line(NextCount(s, h), l) == Line(s, l)
  {
    hide On, RunIds;
  }

  lemma QuietOrder(s: State, t: Step)
    requires InOrderInv(s) && Enabled(s, t)
    requires t.LoadScript? || t.UnloadScript? || t.CreateOrm? || t.ChangeOrm? || t.UseOrm? || t.DestroyOrm?
             || t.Return?
    ensures InOrderInv(Next(s, t))
  {
    hide InOrderInv;
    var s' := Next(s, t);
    if s'.fault == s.fault {
      StillLines(s, s');
    } else {
      hide On, RunIds;
      FaultLines(s);
    }
  }

  lemma FaultLines(s: State)
    requires InOrderInv(s)
    ensures InOrderInv(Fault(s))
  {
    hide On, RunIds;
    forall l ensures Line(Fault(s), l) == Line(s, l) {
    }
    hide Line;
    SameLines(s, Fault(s));
  }

  /** Closing a handle ends the claim. */
  lemma ClosingOrder(s: State, t: Step)
    requires InOrderInv(s) && Enabled(s, t)
    requires t.Close? || t.Stop? || t.Join? || t.Drain? || t.Sweep? || t.Restore?
    ensures InOrderInv(Next(s, t))
  {
    hide Line;
    assert Next(s, t).log.closed;
  }

  // ---------------------------------------------------------------------------
  // Accepted queries

  /** Nothing is accepted, no query is new, and the one being issued is not dropped from sight. */
  lemma SubmittedSame(s: State, s': State)
    requires SubmittedInv(s) && s'.log.submitted == s.log.submitted && s'.born == s.born
    requires s'.log.runs == s.log.runs && s'.log.lanes == s.log.lanes
    requires forall q :: q in s'.queries ==> q in s.queries
    requires s'.main == s.main || (s.main.Created? && s.main.query !in s'.queries && !s'.main.Created?)
             || (!s.main.Created? && !s'.main.Created?)
    ensures SubmittedInv(s')
  {
  }

  lemma IssueSubmitted(s: State, h: Addr, conn: nat, amx: Addr, binding: Option<Binding>, callback: string)
    requires SubmittedInv(s) && s.main.Free? && h in s.lives.handles
    ensures SubmittedInv(NextIssue(s, h, conn, amx, binding, callback))
  {
  }

  lemma PushSubmitted(s: State, q: QueryId)
    requires SubmittedInv(s) && Places.PlaceInv(s) && s.main == Created(q)
    ensures SubmittedInv(NextPush(s, q))
  {
    Places.CreatedQuery(s, q);
    hide Places.PlaceInv;
    var s', h, i := NextPush(s, q), s.queries[q].handle, s.queries[q].conn;
    if HasConn(s, h, i) && |ConnAt(s, h, i).queue| < QUEUE_CAPACITY {
      forall k | 0 <= k < |s.log.submitted| ensures s.log.submitted[k] < q {
        assert s.log.submitted[k] in s.log.submitted;
      }
      AppendOne(s.log.submitted, q);
    } else {
      SubmittedSame(s, s');
    }
  }

  lemma DispatchSubmitted(s: State, q: QueryId, found: bool, fits: bool)
    requires SubmittedInv(s) && Places.PlaceInv(s) && HandleInv(s) && s.tick == Taken(q)
    ensures SubmittedInv(NextDispatch(s, q, found, fits))
  {
    assert s.main.Free?;
    hide Places.PlaceInv, HandleInv, Increasing, NextDispatch;
    Places.TakenQuery(s, q);
    assert q in s.log.submitted;
    DispatchFrame(s, q, found, fits);
    var runs, runs' := s.log.runs, NextDispatch(s, q, found, fits).log.runs;
    assert forall i :: 0 <= i < |runs| ==> runs'[..|runs|] == runs ==> runs'[i] == runs[i];
  }

  predicate Silent(t: Step) {
    !(t.Issue? || t.IssueOrm? || t.Push? || t.Dispatch?)
  }

  lemma SilentSubmitted(s: State, t: Step)
    requires SubmittedInv(s) && Enabled(s, t) && Silent(t)
    ensures SubmittedInv(Next(s, t))
  {
    hide SubmittedInv;
    SilentFrame(s, t);
    SubmittedSame(s, Next(s, t));
  }

  lemma SilentFrame(s: State, t: Step)
    requires Enabled(s, t) && Silent(t)
    ensures var s' := Next(s, t);
            && s'.log.submitted == s.log.submitted && s'.born == s.born && s'.log.runs == s.log.runs
            && s'.log.lanes == s.log.lanes && (forall q :: q in s'.queries ==> q in s.queries)
            && (s'.main == s.main || (!s.main.Created? && !s'.main.Created?))
  {
    SilentMain(s, t);
    SilentLog(s, t);
    if Tokens.IsTame(t) {
      Tokens.TameStep(s, t);
      hide Tokens.Tamed, Next, Enabled;
    }
  }

  lemma SilentLog(s: State, t: Step)
    requires Enabled(s, t) && Silent(t)
    ensures Next(s, t).log.submitted == s.log.submitted
  {
  }

  lemma SilentMain(s: State, t: Step)
    requires Enabled(s, t) && Silent(t)
    ensures Next(s, t).main == s.main || (!s.main.Created? && !Next(s, t).main.Created?)
  {
  }

  // ---------------------------------------------------------------------------
  // Every run

  lemma OrmHandle(s: State, o: Addr)
    requires Tokens.TokenInv(s) && o in s.lives.orms
    ensures s.lives.orms[o].handle in s.lives.handles
  {
  }

  lemma TouchSubmitted(s: State, used: set<BoundVariable>)
    requires SubmittedInv(s)
    ensures SubmittedInv(Touch(s, used))
  {
  }

  lemma SubmittedKept(s: State, t: Step)
    requires SubmittedInv(s) && Places.PlaceInv(s) && HandleInv(s) && Tokens.TokenInv(s) && Enabled(s, t)
    ensures SubmittedInv(Next(s, t))
  {
    hide SubmittedInv, Places.PlaceInv, HandleInv, Tokens.TokenInv, NextIssue, NextPush, NextDispatch;
    if t.Issue? {
      IssueSubmitted(s, t.handle, t.conn, t.amx, None, t.callback);
    } else if t.IssueOrm? {
      var orm := s.lives.orms[t.orm];
      OrmHandle(s, t.orm);
      TouchSubmitted(s, Needed(orm.layout, t.kind));
      IssueSubmitted(Touch(s, Needed(orm.layout, t.kind)), orm.handle, 0, t.amx,
                     Some(Binding(t.orm, orm.lifetime, orm.layout, t.kind)), t.callback);
    } else if t.Push? {
      PushSubmitted(s, s.main.query);
    } else if t.Dispatch? {
      DispatchSubmitted(s, s.tick.query, t.found, t.fits);
    } else {
      SilentSubmitted(s, t);
    }
  }

  lemma InOrderKept(s: State, t: Step)
    requires InOrderInv(s) && SubmittedInv(s) && Places.PlaceInv(s) && HandleInv(s) && Tokens.TokenInv(s)
    requires Enabled(s, t)
    ensures InOrderInv(Next(s, t))
  {
    UsableHandles(s);
    hide InOrderInv, SubmittedInv, Places.PlaceInv, HandleInv, Tokens.TokenInv, NextConnect, NextIssue, NextIssueOrm,
      NextPush, NextCount, NextDispatch, NextReturn, NextClose, NextStop, NextDrain, NextSweep, NextRestore;
    match t
    case Connect(h, pool) => ConnectOrder(s, h, pool);
    case Issue(h, conn, amx, callback) => IssueOrder(s, h, conn, amx, None, callback);
    case IssueOrm(o, kind, amx, callback) => IssueOrmOrder(s, o, kind, amx, callback);
    case Push => PushOrder(s, s.main.query);
    case Count => CountOrder(s, s.main.handle);
    case Take(_, _) => WorkerOrder(s, t);
    case Execute(_, _, _) => WorkerOrder(s, t);
    case Deliver(_, _) => WorkerOrder(s, t);
    case Exit(_, _) => WorkerOrder(s, t);
    case Close(_) => ClosingOrder(s, t);
    case Stop => ClosingOrder(s, t);
    case Join => ClosingOrder(s, t);
    case Drain => ClosingOrder(s, t);
    case Sweep => ClosingOrder(s, t);
    case Restore => ClosingOrder(s, t);
    case Pop => PopOrder(s);
    case Dispatch(found, fits) => DispatchOrder(s, s.tick.query, found, fits);
    case Return => QuietOrder(s, t);
    case LoadScript(_) => QuietOrder(s, t);
    case UnloadScript(_) => QuietOrder(s, t);
    case CreateOrm(_, _, _) => QuietOrder(s, t);
    case ChangeOrm(_, _) => QuietOrder(s, t);
    case UseOrm(_, _) => QuietOrder(s, t);
    case DestroyOrm(_) => QuietOrder(s, t);
  }

  lemma UsableHandles(s: State)
    requires HandleInv(s)
    ensures s.main.Pushed? ==> s.main.handle in s.handles
  {
  }

  lemma {:induction false} OrderAlways(steps: seq<Step>)
    ensures InOrderInv(After(steps)) && SubmittedInv(After(steps))
  {
    if steps != [] {
      var init := steps[..|steps| - 1];
      OrderAlways(init);
      Places.PlacesAlways(init);
      HandlesAlways(init);
      Tokens.TokensAlways(init);
      hide InOrderInv, SubmittedInv, Places.PlaceInv, HandleInv, Tokens.TokenInv, Enabled, Next;
      if Enabled(After(init), steps[|steps| - 1]) {
        InOrderKept(After(init), steps[|steps| - 1]);
        SubmittedKept(After(init), steps[|steps| - 1]);
      }
    }
  }

  // ---------------------------------------------------------------------------
  // What the runs show

  lemma {:induction false} OnOrder(lanes: map<QueryId, Lane>, qs: seq<QueryId>, l: Lane, i: nat, j: nat)
    requires i < j < |qs| && Increasing(On(lanes, qs, l))
    requires qs[i] in lanes && lanes[qs[i]] == l && qs[j] in lanes && lanes[qs[j]] == l
    ensures qs[i] < qs[j]
  {
    hide On;
    OnConcat(lanes, qs[..j], qs[j..], l);
    assert qs == qs[..j] + qs[j..];
    OnHas(lanes, qs[..j], l, i);
    OnHas(lanes, qs[j..], l, 0);
    var a, b := On(lanes, qs[..j], l), On(lanes, qs[j..], l);
    var i' :| 0 <= i' < |a| && a[i'] == qs[i];
    var j' :| 0 <= j' < |b| && b[j'] == qs[j];
    assert (a + b)[i'] < (a + b)[|a| + j'];
  }

  lemma {:induction false} OnHas(lanes: map<QueryId, Lane>, qs: seq<QueryId>, l: Lane, i: nat)
    requires i < |qs| && qs[i] in lanes && lanes[qs[i]] == l
    ensures qs[i] in On(lanes, qs, l)
  {
    if i < |qs| - 1 {
      OnHas(lanes, qs[..|qs| - 1], l, i);
    }
  }

  lemma Prefix(a: seq<QueryId>, b: seq<QueryId>)
    requires Increasing(a + b)
    ensures Increasing(a)
  {
    forall i, j | 0 <= i < j < |a| ensures a[i] < a[j] {
      assert (a + b)[i] == a[i] && (a + b)[j] == a[j];
    }
  }

  /** While no handle is closed, two callbacks of one connection run in the order in which it accepted their queries;
      in particular, no query runs twice. */
  lemma CallbacksInOrder(steps: seq<Step>, i: nat, j: nat, l: Lane)
    requires var log := After(steps).log;
             !log.closed && i < j < |log.runs|
             && log.runs[i].query in log.lanes && log.lanes[log.runs[i].query] == l
             && log.runs[j].query in log.lanes && log.lanes[log.runs[j].query] == l
    ensures var log := After(steps).log;
            exists a, b :: 0 <= a < b < |log.submitted|
                           && log.submitted[a] == log.runs[i].query && log.submitted[b] == log.runs[j].query
  {
    OrderAlways(steps);
    var s := After(steps);
    RunsInOrder(s, i, j, l);
    var a :| 0 <= a < |s.log.submitted| && s.log.submitted[a] == s.log.runs[i].query;
    var b :| 0 <= b < |s.log.submitted| && s.log.submitted[b] == s.log.runs[j].query;
    assert a < b;
  }

  lemma RunsInOrder(s: State, i: nat, j: nat, l: Lane)
    requires InOrderInv(s) && !s.log.closed && i < j < |s.log.runs|
    requires s.log.runs[i].query in s.log.lanes && s.log.lanes[s.log.runs[i].query] == l
    requires s.log.runs[j].query in s.log.lanes && s.log.lanes[s.log.runs[j].query] == l
    ensures s.log.runs[i].query < s.log.runs[j].query
  {
    hide On, Outgoing, LaneIds, InOrderInv;
    var lanes, ids := s.log.lanes, RunIds(s.log.runs);
    assert Increasing(Line(s, l)) by {
      LineIncreasing(s, l);
    }
    RunsFirst(s, l);
    var rest := On(lanes, TickIds(s.tick) + s.callbacks, l) + LaneIds(s, l) + On(lanes, CreatedIds(s), l);
    assert Line(s, l) == On(lanes, ids, l) + rest;
    Prefix(On(lanes, ids, l), rest);
    OnOrder(lanes, ids, l, i, j);
  }

  lemma LineIncreasing(s: State, l: Lane)
    requires InOrderInv(s) && !s.log.closed
    ensures Increasing(Line(s, l))
  {
    hide Line;
  }

  lemma RunsFirst(s: State, l: Lane)
    ensures On(s.log.lanes, Outgoing(s), l)
            == On(s.log.lanes, RunIds(s.log.runs), l) + On(s.log.lanes, TickIds(s.tick) + s.callbacks, l)
  {
    hide On, RunIds;
    OnConcat(s.log.lanes, RunIds(s.log.runs), TickIds(s.tick) + s.callbacks, l);
    assert RunIds(s.log.runs) + (TickIds(s.tick) + s.callbacks) == Outgoing(s);
  }

  /** Every query whose callback ran was accepted by its connection. */
  lemma RunsSubmitted(steps: seq<Step>, i: nat)
    requires i < |After(steps).log.runs|
    ensures var log := After(steps).log;
            log.runs[i].query in log.submitted && log.runs[i].query in log.lanes
  {
    OrderAlways(steps);
  }
}
