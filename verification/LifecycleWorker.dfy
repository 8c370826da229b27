/** `ProcessQueries` by itself: a worker that empties its connection's queue while nothing else happens, as a loop that
    takes the steps of the life cycle. */
module LifecycleWorker {
  import opened Lifecycle
  import Places = LifecyclePlaces
  import opened LifecycleCounter
  import opened LifecycleTick

  function Minus(counter: nat): nat {
    (counter + WORD - 1) % WORD
  }

  /** One turn: the first query of the queue is executed, counted off, and delivered or, without room, deleted. */
  ghost predicate Worked(s: State, s': State, h: Addr, i: nat, outcome: QueryId -> Outcome)
    requires HasConn(s, h, i) && ConnAt(s, h, i).queue != []
  {
    var c := ConnAt(s, h, i);
    var q := c.queue[0];
    var handle := s.handles[h];
    q in s.queries
    && (if |s.callbacks| < CALLBACK_CAPACITY then
          s'.callbacks == s.callbacks + [q] && s'.queries == s.queries[q := Finished(s.queries[q], outcome(q))]
        else s'.callbacks == s.callbacks && s'.queries == s.queries - {q})
    && s'.handles == s.handles[h := Handle(handle.generation, Minus(handle.counter),
                                           handle.conns[i := Conn(c.queue[1..], Idle, c.running)])]
    && s'.main == s.main && s'.tick == s.tick && s'.lives == s.lives && s'.log == s.log
  }

  lemma TakeTurn(s: State, h: Addr, i: nat)
    requires Enabled(s, Take(h, i))
    ensures var c := ConnAt(s, h, i);
            Next(s, Take(h, i)) == SetConn(s, h, i, Conn(c.queue[1..], Executing(c.queue[0]), c.running))
  {
  }

  lemma ExecuteTurn(s: State, h: Addr, i: nat, q: QueryId, outcome: Outcome)
    requires HasConn(s, h, i) && ConnAt(s, h, i).worker == Executing(q) && !s.fault && !s.log.stray
    requires q in s.queries && s.queries[q].handle == h
    ensures Enabled(s, Execute(h, i, outcome))
    ensures var c, handle := ConnAt(s, h, i), s.handles[h];
            Next(s, Execute(h, i, outcome))
            == s.(queries := s.queries[q := Finished(s.queries[q], outcome)],
                  handles := s.handles[h := Handle(handle.generation, Minus(handle.counter),
                                                   handle.conns[i := Conn(c.queue, Executed(q), c.running)])])
  {
    hide Finished;
    var handle := s.handles[h];
    var h1 := handle.(counter := Minus(handle.counter));
    var c' := Conn(ConnAt(s, h, i).queue, Executed(q), ConnAt(s, h, i).running);
    assert s.handles[h := h1][h := h1.(conns := h1.conns[i := c'])] == s.handles[h := h1.(conns := h1.conns[i := c'])];
  }

  lemma DeliverTurn(s: State, h: Addr, i: nat, q: QueryId)
    requires HasConn(s, h, i) && ConnAt(s, h, i).worker == Executed(q) && !s.fault && !s.log.stray && q in s.queries
    ensures Enabled(s, Deliver(h, i))
    ensures var c := ConnAt(s, h, i);
            var s1 := SetConn(s, h, i, Conn(c.queue, Idle, c.running));
            Next(s, Deliver(h, i))
            == if |s.callbacks| < CALLBACK_CAPACITY then s1.(callbacks := s.callbacks + [q])
               else s1.(queries := s.queries - {q})
  {
  }

  lemma TurnSteps(s: State, h: Addr, i: nat, outcome: QueryId -> Outcome)
    requires Enabled(s, Take(h, i)) && var q := ConnAt(s, h, i).queue[0]; q in s.queries && s.queries[q].handle == h
    ensures var q := ConnAt(s, h, i).queue[0];
            var s1 := Next(s, Take(h, i));
            && Enabled(s1, Execute(h, i, outcome(q)))
            && var s2 := Next(s1, Execute(h, i, outcome(q)));
               Enabled(s2, Deliver(h, i)) && Worked(s, Next(s2, Deliver(h, i)), h, i, outcome)
  {
    var c := ConnAt(s, h, i);
    var q := c.queue[0];
    TakeTurn(s, h, i);
    var s1 := SetConn(s, h, i, Conn(c.queue[1..], Executing(q), c.running));
    ExecuteTurn(s1, h, i, q, outcome(q));
    var s2 := Next(s1, Execute(h, i, outcome(q)));
    hide Finished;
    assert s2.handles[h].conns[i] == Conn(c.queue[1..], Executed(q), c.running);
    DeliverTurn(s2, h, i, q);
    hide Next, Enabled;
    TurnHandles(s, h, i, q);
  }

  /** The three writes to the handle amount to one. */
  lemma TurnHandles(s: State, h: Addr, i: nat, q: QueryId)
    requires HasConn(s, h, i) && ConnAt(s, h, i).queue != []
    ensures var c, a := ConnAt(s, h, i), s.handles[h];
            var b := a.(conns := a.conns[i := Conn(c.queue[1..], Executing(q), c.running)]);
            var d := Handle(b.generation, Minus(b.counter), b.conns[i := Conn(c.queue[1..], Executed(q), c.running)]);
            var e := d.(conns := d.conns[i := Conn(c.queue[1..], Idle, c.running)]);
            e == Handle(a.generation, Minus(a.counter), a.conns[i := Conn(c.queue[1..], Idle, c.running)])
            && s.handles[h := b][h := d][h := e] == s.handles[h := e]
  {
  }

  method Turn(history: seq<Step>, s: State, h: Addr, i: nat, outcome: QueryId -> Outcome)
    returns (steps: seq<Step>, s': State)
    requires s == After(history) && Enabled(s, Take(h, i)) && HasConn(s, h, i) && ConnAt(s, h, i).queue != []
    ensures s' == After(history + steps) && Worked(s, s', h, i, outcome)
  {
    hide After, Next, Worked, Enabled, Places.Count;
    var q := ConnAt(s, h, i).queue[0];
    Places.PlacesAlways(history);
    assert q in s.queries && s.queries[q].handle == h by {
      QueuedQuery(s, h, i);
    }
    TurnSteps(s, h, i, outcome);
    AfterMore(history, Take(h, i));
    AfterMore(history + [Take(h, i)], Execute(h, i, outcome(q)));
    assert history + [Take(h, i)] + [Execute(h, i, outcome(q))] == history + [Take(h, i), Execute(h, i, outcome(q))];
    AfterMore(history + [Take(h, i), Execute(h, i, outcome(q))], Deliver(h, i));
    steps := [Take(h, i), Execute(h, i, outcome(q)), Deliver(h, i)];
    assert history + [Take(h, i), Execute(h, i, outcome(q))] + [Deliver(h, i)] == history + steps;
    s' := Next(Next(Next(s, Take(h, i)), Execute(h, i, outcome(q))), Deliver(h, i));
  }

  lemma QueuedQuery(s: State, h: Addr, i: nat)
    requires Places.PlaceInv(s) && Enabled(s, Take(h, i))
    ensures var q := ConnAt(s, h, i).queue[0]; q in s.queries && s.queries[q].handle == h
  {
    Places.LabelledAt(s, h, i);
    Places.Somewhere(s, ConnAt(s, h, i).queue[0]);
  }

  // ---------------------------------------------------------------------------
  // The loop

  /** How many of n queries the callback queue has room for. */
  function Room(s: State, n: nat): nat {
    if |s.callbacks| >= CALLBACK_CAPACITY then 0
    else if |s.callbacks| + n <= CALLBACK_CAPACITY then n
    else CALLBACK_CAPACITY - |s.callbacks|
  }

  /** What the turns so far have done: the first queries went to the callback queue in order, as far as there was room,
      and the others were deleted; each was counted off; nothing else changed. */
  ghost predicate WorkedAll(s: State, s': State, h: Addr, i: nat, done: seq<QueryId>, outcome: QueryId -> Outcome)
    requires HasConn(s, h, i)
  {
    WorkedHandles(s, s', h, i, done) && WorkedQueries(s, s', done, outcome)
    && s'.main == s.main && s'.tick == s.tick && s'.lives == s.lives && s'.log == s.log
  }

  ghost predicate WorkedHandles(s: State, s': State, h: Addr, i: nat, done: seq<QueryId>)
    requires HasConn(s, h, i)
  {
    && HasConn(s', h, i) && ConnAt(s, h, i).queue == done + ConnAt(s', h, i).queue
    && s'.handles[h].conns == s.handles[h].conns[i := Conn(ConnAt(s', h, i).queue, Idle, ConnAt(s, h, i).running)]
    && s'.handles[h].counter == (s.handles[h].counter + (WORD - 1) * |done|) % WORD
    && (forall k :: k in s'.handles <==> k in s.handles)
    && (forall k :: k in s.handles && k != h ==> s'.handles[k] == s.handles[k])
  }

  ghost predicate WorkedQueries(s: State, s': State, done: seq<QueryId>, outcome: QueryId -> Outcome) {
    && s'.callbacks == s.callbacks + done[..Room(s, |done|)]
    && (forall q :: q in s'.queries <==> q in s.queries && q !in done[Room(s, |done|)..])
    && (forall q :: q in s'.queries ==>
          s'.queries[q] == if q in done then Finished(s.queries[q], outcome(q)) else s.queries[q])
  }

  lemma RoomMore(s: State, n: nat)
    ensures Room(s, n) <= n && Room(s, n + 1) <= n + 1
    ensures |s.callbacks| + Room(s, n) < CALLBACK_CAPACITY ==> Room(s, n) == n && Room(s, n + 1) == n + 1
    ensures |s.callbacks| + Room(s, n) >= CALLBACK_CAPACITY ==> Room(s, n + 1) == Room(s, n)
  {
  }

  lemma CountedMore(counter: nat, n: nat)
    ensures Minus((counter + (WORD - 1) * n) % WORD) == (counter + (WORD - 1) * (n + 1)) % WORD
  {
    var x := counter + (WORD - 1) * n;
    assert (x % WORD + WORD - 1) % WORD == (x + WORD - 1) % WORD;
  }

  lemma MoreQueries(s: State, s1: State, s2: State, h: Addr, i: nat, done: seq<QueryId>, outcome: QueryId -> Outcome)
    requires WorkedQueries(s, s1, done, outcome) && HasConn(s1, h, i) && ConnAt(s1, h, i).queue != []
    requires Worked(s1, s2, h, i, outcome) && ConnAt(s1, h, i).queue[0] !in done
    ensures WorkedQueries(s, s2, done + [ConnAt(s1, h, i).queue[0]], outcome)
  {
    hide Finished;
    var q := ConnAt(s1, h, i).queue[0];
    var next := done + [q];
    RoomMore(s, |done|);
    if |s1.callbacks| < CALLBACK_CAPACITY {
      assert next[..|next|] == next && done[..|done|] == done && next[|next|..] == [] && done[|done|..] == [];
      assert s.callbacks + done + [q] == s.callbacks + next;
    } else {
      var r := Room(s, |done|);
      assert next[..r] == done[..r] && next[r..] == done[r..] + [q];
    }
  }

  lemma MoreHandles(s: State, s1: State, s2: State, h: Addr, i: nat, done: seq<QueryId>, outcome: QueryId -> Outcome)
    requires HasConn(s, h, i) && WorkedHandles(s, s1, h, i, done) && ConnAt(s1, h, i).queue != []
    requires Worked(s1, s2, h, i, outcome)
    ensures WorkedHandles(s, s2, h, i, done + [ConnAt(s1, h, i).queue[0]])
  {
    CountedMore(s.handles[h].counter, |done|);
    hide Finished, Minus;
    var q := ConnAt(s1, h, i).queue[0];
    assert ConnAt(s1, h, i).queue == [q] + ConnAt(s2, h, i).queue;
    assert done + ([q] + ConnAt(s2, h, i).queue) == done + [q] + ConnAt(s2, h, i).queue;
  }

  lemma WorkedMore(s: State, s1: State, s2: State, h: Addr, i: nat, done: seq<QueryId>, outcome: QueryId -> Outcome)
    requires HasConn(s, h, i) && WorkedAll(s, s1, h, i, done, outcome) && ConnAt(s1, h, i).queue != []
    requires Worked(s1, s2, h, i, outcome) && ConnAt(s1, h, i).queue[0] !in done
    ensures WorkedAll(s, s2, h, i, done + [ConnAt(s1, h, i).queue[0]], outcome)
  {
    hide WorkedQueries;
    MoreQueries(s, s1, s2, h, i, done, outcome);
    MoreHandles(s, s1, s2, h, i, done, outcome);
    hide WorkedHandles, Finished, Minus;
  }

  lemma NoneWorked(s: State, h: Addr, i: nat, outcome: QueryId -> Outcome)
    requires HasConn(s, h, i) && ConnAt(s, h, i).worker.Idle? && s.handles[h].counter < WORD
    ensures WorkedAll(s, s, h, i, [], outcome)
  {
    var none: seq<QueryId> := [];
    assert s.callbacks + none[..Room(s, 0)] == s.callbacks;
    assert none + ConnAt(s, h, i).queue == ConnAt(s, h, i).queue;
    var c := ConnAt(s, h, i);
    assert s.handles[h].conns[i := Conn(c.queue, Idle, c.running)] == s.handles[h].conns;
  }

  /** A connection's queue holds no query twice. */
  lemma NotTwice(s: State, h: Addr, i: nat, done: seq<QueryId>, q: QueryId, rest: seq<QueryId>)
    requires Places.PlaceInv(s) && HasConn(s, h, i) && ConnAt(s, h, i).queue == done + [q] + rest
    ensures q !in done
  {
    Places.LabelledAt(s, h, i);
    assert ConnAt(s, h, i).queue[|done|] == q;
    assert Places.Labelled(s, q, h, i);
    Places.Somewhere(s, q);
    assert multiset(done + [q] + rest)[q] == multiset(done)[q] + 1 + multiset(rest)[q];
  }

  lemma CounterSmall(history: seq<Step>, h: Addr)
    requires h in After(history).handles
    ensures After(history).handles[h].counter < WORD
  {
    CountersAlways(history);
    hide After;
    assert Bounded(After(history).handles[h]);
  }

  /** The inner loop of `ProcessQueries` while the worker runs undisturbed. */
  method ProcessQueries(history: seq<Step>, h: Addr, i: nat, outcome: QueryId -> Outcome) returns (steps: seq<Step>)
    requires var s := After(history);
             HasConn(s, h, i) && ConnAt(s, h, i).running && ConnAt(s, h, i).worker.Idle? && !s.log.stray
    ensures var s, s' := After(history), After(history + steps);
            WorkedAll(s, s', h, i, ConnAt(s, h, i).queue, outcome) && ConnAt(s', h, i).queue == []
  {
    hide After, Worked, WorkedAll, Room, Places.PlaceInv, Finished;
    CounterSmall(history, h);
    ghost var s0 := After(history);
    var s := After(history);
    steps := [];
    assert history + [] == history;
    ghost var done: seq<QueryId> := [];
    NoneWorked(s0, h, i, outcome);
    Places.PlacesAlways(history);
    while ConnAt(s, h, i).queue != []
      invariant s == After(history + steps) && HasConn(s, h, i) && WorkedAll(s0, s, h, i, done, outcome)
      invariant ConnAt(s0, h, i).queue == done + ConnAt(s, h, i).queue
      invariant ConnAt(s, h, i).running && ConnAt(s, h, i).worker.Idle? && !s.log.stray
      decreases |ConnAt(s, h, i).queue|
    {
      var q := ConnAt(s, h, i).queue[0];
      Places.NoFault(history + steps);
      var more, s' := Turn(history + steps, s, h, i, outcome);
      assert ConnAt(s0, h, i).queue == done + [q] + ConnAt(s, h, i).queue[1..];
      NotTwice(s0, h, i, done, q, ConnAt(s, h, i).queue[1..]);
      WorkedMore(s0, s, s', h, i, done, outcome);
      WorkedShape(s, s', h, i, outcome);
      done := done + [q];
      assert history + steps + more == history + (steps + more);
      steps, s := steps + more, s';
    }
    assert done + [] == done;
  }

  lemma WorkedShape(s: State, s': State, h: Addr, i: nat, outcome: QueryId -> Outcome)
    requires HasConn(s, h, i) && ConnAt(s, h, i).queue != [] && Worked(s, s', h, i, outcome)
    ensures HasConn(s', h, i) && s'.log == s.log
    ensures ConnAt(s', h, i) == Conn(ConnAt(s, h, i).queue[1..], Idle, ConnAt(s, h, i).running)
  {
  }
}
