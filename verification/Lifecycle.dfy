/** The life of a query: from a native through a connection's queue, its worker thread, the callback queue and the
    server tick that runs the callback.

    A state holds everything the threads share. A step is one action of one thread that no other thread can divide;
    which action comes next is free, so `After` over all lists of steps ranges over all interleavings. A step that
    would touch an object that no longer exists, or delete one twice, sets `fault`; one that touches a variable of a
    script that has ended sets `stray`. Nothing is said of what comes after either. */
module Lifecycle {
  import opened Wrappers

  // ---------------------------------------------------------------------------
  // Objects

  /** Where an object lies. The allocator may use an address again once its object is deleted. */
  type Addr = nat

  /** The control block of a lifetime's shared pointer. No two are the same as long as a weak pointer keeps one. */
  type Token = nat

  /** The identity of a query object, in the order of creation. */
  type QueryId = nat

  const QUEUE_CAPACITY: nat := 16876
  const CALLBACK_CAPACITY: nat := 32648
  const POOL_LIMIT: nat := 64
  const WORD: nat := 0x1_0000_0000

  /** A variable bound to an ORM: a cell or a string in the memory of the script that bound it, which is there as long
      as that generation of the script is loaded. */
  datatype BoundVariable = BoundVariable(name: string, text: bool, amx: Addr, script: Token)

  /** The variables of an ORM in order, and its key. */
  datatype Layout = Layout(vars: seq<BoundVariable>, key: Option<BoundVariable>)

  const NO_VARIABLES := Layout([], None)

  function Variables(l: Layout): set<BoundVariable> {
    (set v | v in l.vars) + KeyOf(l)
  }

  function KeyOf(l: Layout): set<BoundVariable> {
    if l.key.Some? then {l.key.value} else {}
  }

  datatype Orm = Orm(lifetime: Token, layout: Layout, handle: Addr, owner: Addr)

  datatype OrmQuery = Select | Update | Insert | Delete

  /** The ORM a query was made for; `layout` records what the query's text was generated from. */
  datatype Binding = Binding(orm: Addr, lifetime: Token, layout: Layout, kind: OrmQuery)

  /** `generation` records which handle at the address `handle` the query was made for. */
  datatype Query = Query(handle: Addr, generation: Token, conn: nat, owner: Addr, script: Option<Token>,
                         binding: Option<Binding>, target: Option<Addr>, callback: string)

  /** How a query's execution ends: well, with an error, or with a result that the connector could not store. */
  datatype Outcome = Done | Failed | Unstored

  datatype Worker = Idle | Executing(query: QueryId) | Executed(query: QueryId) | Exited

  datatype Conn = Conn(queue: seq<QueryId>, worker: Worker, running: bool)

  /** conns[0] is the threaded connection, the others are the pool. `generation` tells this handle from others that
      lie at the same address at other times. */
  datatype Handle = Handle(generation: Token, counter: nat, conns: seq<Conn>)

  /** The object whose member holds the only shared pointer to a control block. */
  datatype Holder = OfScript(amx: Addr) | OfHandle(handle: Addr) | OfOrm(orm: Addr)

  // ---------------------------------------------------------------------------
  // States

  /** What the server's thread is doing: nothing of the plugin's, a query native after creating its query or after
      pushing it, or one of the stages of `mysql_close`. */
  datatype Main =
    | Free
    | Created(query: QueryId)
    | Pushed(handle: Addr)
    | Stopping(handle: Addr, conn: nat)
    | Joining(handle: Addr, conn: nat)
    | Draining(handle: Addr, conn: nat)
    | Sweeping(handle: Addr, kept: seq<QueryId>)
    | Restoring(kept: seq<QueryId>)

  /** `ProcessCallbacks`: not active, holding a query taken from the queue, or inside the query's public function. */
  datatype Tick = NoTick | Taken(query: QueryId) | Running(query: QueryId, lifetime: Token)

  /** The connection a query was made for. */
  datatype Lane = Lane(handle: Addr, conn: nat)

  /** A public function that ran: for which query, the generation of its script at the native's call, and the
      generation that ran. */
  datatype Run = Run(query: QueryId, issued: Option<Token>, ran: Token)

  /** A result applied to an ORM: the layout its query came from, and the ORM's layout at that moment. */
  datatype Applied = Applied(query: QueryId, generated: Layout, current: Layout)

  /** The lifetimes of scripts, handles and ORMs. A handle is here while `CMySQLHandle::IsValid` finds it, that is,
      until it begins to close; `next` is the next control block. */
  datatype Lives = Lives(
    next: Token,
    scripts: map<Addr, Token>,
    handles: map<Addr, Token>,
    orms: map<Addr, Orm>,
    alive: map<Token, Holder>)

  /** What has happened: the connection of every query ever made, the queries accepted by a connection in order, the
      public functions run, the results applied, whether a handle was ever closed, and whether the memory of a script
      was touched after the script's end. */
  datatype Log = Log(
    lanes: map<QueryId, Lane>,
    submitted: seq<QueryId>,
    runs: seq<Run>,
    applied: seq<Applied>,
    closed: bool,
    stray: bool)

  /** `handles` and `queries` are the objects not deleted yet, and `born` is the next query. */
  datatype State = State(
    lives: Lives,
    handles: map<Addr, Handle>,
    queries: map<QueryId, Query>,
    born: QueryId,
    callbacks: seq<QueryId>,
    main: Main,
    tick: Tick,
    lost: set<QueryId>,
    fault: bool,
    log: Log)

  function Init(): State {
    State(Lives(0, map[], map[], map[], map[]), map[], map[], 0, [], Free, NoTick, {}, false,
          Log(map[], [], [], [], false, false))
  }

  /** Script code runs, and may call any native, between the plugin's calls and inside a public function. */
  predicate ScriptRuns(s: State) {
    s.main.Free? && !s.tick.Taken?
  }

  predicate HasConn(s: State, h: Addr, i: nat) {
    h in s.handles && i < |s.handles[h].conns|
  }

  /** The handle object exists and has not begun to close. */
  predicate Usable(s: State, h: Addr) {
    h in s.handles && h in s.lives.handles
  }

  predicate Expired(s: State, t: Token) {
    t !in s.lives.alive
  }

  predicate Cancelled(s: State, q: Query) {
    || (q.binding.Some? && Expired(s, q.binding.value.lifetime))
    || q.script.None? || Expired(s, q.script.value)
  }

  // ---------------------------------------------------------------------------
  // Steps

  datatype Step =
    // scripts
    | LoadScript(amx: Addr)
    | UnloadScript(amx: Addr)
    // natives
    | Connect(handle: Addr, pool: nat)
    | CreateOrm(orm: Addr, handle: Addr, amx: Addr)
    | ChangeOrm(orm: Addr, layout: Layout)
    | UseOrm(orm: Addr, used: set<BoundVariable>)
    | DestroyOrm(orm: Addr)
    | Issue(handle: Addr, conn: nat, amx: Addr, callback: string)
    | IssueOrm(orm: Addr, kind: OrmQuery, amx: Addr, callback: string)
    | Push
    | Count
    // workers
    | Take(handle: Addr, conn: nat)
    | Execute(handle: Addr, conn: nat, outcome: Outcome)
    | Deliver(handle: Addr, conn: nat)
    | Exit(handle: Addr, conn: nat)
    // mysql_close
    | Close(handle: Addr)
    | Stop
    | Join
    | Drain
    | Sweep
    | Restore
    // the tick
    | Pop
    | Dispatch(found: bool, fits: bool)
    | Return

  predicate Enabled(s: State, t: Step) {
    !s.fault && !s.log.stray &&
    match t
    case LoadScript(amx) => ScriptRuns(s)
    case UnloadScript(amx) => ScriptRuns(s)
    case Connect(h, pool) => ScriptRuns(s) && h !in s.handles && pool <= POOL_LIMIT
    case CreateOrm(o, h, amx) => ScriptRuns(s) && o !in s.lives.orms && h in s.lives.handles
    case ChangeOrm(o, layout) => ScriptRuns(s) && o in s.lives.orms && Rebinds(s.lives, o, layout)
    case UseOrm(o, used) => ScriptRuns(s) && o in s.lives.orms && used <= Variables(s.lives.orms[o].layout)
    case DestroyOrm(o) => ScriptRuns(s) && o in s.lives.orms
    case Issue(h, conn, amx, callback) => ScriptRuns(s) && h in s.lives.handles
    case IssueOrm(o, kind, amx, callback) => ScriptRuns(s) && o in s.lives.orms
    case Push => s.main.Created?
    case Count => s.main.Pushed?
    case Take(h, i) =>
      HasConn(s, h, i) && ConnAt(s, h, i).running && ConnAt(s, h, i).worker.Idle? && ConnAt(s, h, i).queue != []
    case Execute(h, i, outcome) => HasConn(s, h, i) && ConnAt(s, h, i).worker.Executing?
    case Deliver(h, i) => HasConn(s, h, i) && ConnAt(s, h, i).worker.Executed?
    case Exit(h, i) => HasConn(s, h, i) && !ConnAt(s, h, i).running && ConnAt(s, h, i).worker.Idle?
    case Close(h) => ScriptRuns(s) && h in s.lives.handles
    case Stop => s.main.Stopping?
    case Join =>
      s.main.Joining? && (HasConn(s, s.main.handle, s.main.conn) ==>
                            ConnAt(s, s.main.handle, s.main.conn).worker.Exited?)
    case Drain => s.main.Draining?
    case Sweep => s.main.Sweeping?
    case Restore => s.main.Restoring?
    case Pop => s.main.Free? && s.tick.NoTick? && s.callbacks != []
    case Dispatch(found, fits) => s.tick.Taken?
    case Return => s.main.Free? && s.tick.Running?
  }

  /** A change of an ORM's variables and key: each one was there before, or is bound now by a script that is loaded. The
      natives do not ask whether that script owns the ORM. */
  predicate Rebinds(l: Lives, o: Addr, layout: Layout)
    requires o in l.orms
  {
    forall v :: v in Variables(layout) ==> v in Variables(l.orms[o].layout) || Loaded(l, v)
  }

  /** The script in whose memory the variable lies is still the one loaded there. */
  predicate Loaded(l: Lives, v: BoundVariable) {
    v.amx in l.scripts && l.scripts[v.amx] == v.script
  }

  predicate AllLoaded(l: Lives, used: set<BoundVariable>) {
    forall v :: v in used ==> Loaded(l, v)
  }

  /** Reading or writing variables. */
  function Touch(s: State, used: set<BoundVariable>): State {
    s.(log := s.log.(stray := !AllLoaded(s.lives, used)))
  }

  /** What a query's text is generated from. */
  function Needed(l: Layout, kind: OrmQuery): set<BoundVariable> {
    match kind
    case Select => KeyOf(l)
    case Update => Variables(l)
    case Insert => (set v | v in l.vars) + (set v | v in KeyOf(l) && v.text)
    case Delete => KeyOf(l)
  }

  /** What a result is written to. */
  function Written(l: Layout, kind: OrmQuery): set<BoundVariable> {
    match kind
    case Select => set v | v in l.vars
    case Insert => set v | v in KeyOf(l) && !v.text
    case _ => {}
  }

  function ConnAt(s: State, h: Addr, i: nat): Conn
    requires HasConn(s, h, i)
  {
    s.handles[h].conns[i]
  }

  function SetConn(s: State, h: Addr, i: nat, c: Conn): State
    requires HasConn(s, h, i)
  {
    s.(handles := s.handles[h := s.handles[h].(conns := s.handles[h].conns[i := c])])
  }

  function Fault(s: State): State {
    s.(fault := true)
  }

  function DeleteQuery(s: State, q: QueryId): State {
    if q in s.queries then s.(queries := s.queries - {q}) else Fault(s)
  }

  function Next(s: State, t: Step): State
    requires Enabled(s, t)
  {
    match t
    case LoadScript(amx) => s.(lives := Load(s.lives, amx))
    case UnloadScript(amx) => s.(lives := Unload(s.lives, amx))
    case Connect(h, pool) => NextConnect(s, h, pool)
    case CreateOrm(o, h, amx) => s.(lives := NewOrm(s.lives, o, h, amx, NO_VARIABLES))
    case ChangeOrm(o, layout) => s.(lives := Change(s.lives, o, layout))
    case UseOrm(o, used) => Touch(s, used)
    case DestroyOrm(o) => s.(lives := Destroy(s.lives, o))
    case Issue(h, conn, amx, callback) => NextIssue(s, h, conn, amx, None, callback)
    case IssueOrm(o, kind, amx, callback) => NextIssueOrm(s, o, kind, amx, callback)
    case Push => NextPush(s, s.main.query)
    case Count => NextCount(s, s.main.handle)
    case Take(h, i) => NextTake(s, h, i)
    case Execute(h, i, outcome) => NextExecute(s, h, i, outcome)
    case Deliver(h, i) => NextDeliver(s, h, i)
    case Exit(h, i) => SetConn(s, h, i, ConnAt(s, h, i).(worker := Exited))
    case Close(h) => NextClose(s, h)
    case Stop => NextStop(s, s.main.handle, s.main.conn)
    case Join => s.(main := Draining(s.main.handle, s.main.conn))
    case Drain => NextDrain(s, s.main.handle, s.main.conn)
    case Sweep => NextSweep(s, s.main.handle, s.main.kept)
    case Restore => NextRestore(s, s.main.kept)
    case Pop => s.(callbacks := s.callbacks[1..], tick := Taken(s.callbacks[0]))
    case Dispatch(found, fits) => NextDispatch(s, s.tick.query, found, fits)
    case Return => NextReturn(s, s.tick.query, s.tick.lifetime)
  }

  // ---------------------------------------------------------------------------
  // Lifetimes

  /** `AddAmx`: the entry's old control block, if there is one, goes with the assignment. */
  function Load(l: Lives, amx: Addr): Lives {
    var before := if amx in l.scripts then {l.scripts[amx]} else {};
    l.(next := l.next + 1, scripts := l.scripts[amx := l.next], alive := (l.alive - before)[l.next := OfScript(amx)])
  }

  /** The control blocks that go when these ORMs are destroyed. */
  function Lifetimes(l: Lives, gone: set<Addr>): set<Token> {
    set o | o in gone && o in l.orms :: l.orms[o].lifetime
  }

  /** `AmxUnload`: the script's ORMs go first. */
  function Unload(l: Lives, amx: Addr): Lives {
    var gone := set o | o in l.orms && l.orms[o].owner == amx;
    var before := if amx in l.scripts then {l.scripts[amx]} else {};
    l.(orms := l.orms - gone, scripts := l.scripts - {amx}, alive := l.alive - (Lifetimes(l, gone) + before))
  }

  function NewHandle(l: Lives, h: Addr): Lives {
    l.(next := l.next + 1, handles := l.handles[h := l.next], alive := l.alive[l.next := OfHandle(h)])
  }

  /** The start of `CMySQLHandle::Destroy`: the handle's ORMs go, and its lifetime ends. */
  function Retire(l: Lives, h: Addr): Lives
    requires h in l.handles
  {
    var gone := set o | o in l.orms && l.orms[o].handle == h;
    l.(orms := l.orms - gone, handles := l.handles - {h}, alive := l.alive - (Lifetimes(l, gone) + {l.handles[h]}))
  }

  function NewOrm(l: Lives, o: Addr, h: Addr, amx: Addr, layout: Layout): Lives {
    l.(next := l.next + 1, orms := l.orms[o := Orm(l.next, layout, h, amx)], alive := l.alive[l.next := OfOrm(o)])
  }

  /** A variable was added or removed, or the key set: a new control block with the new layout. */
  function Change(l: Lives, o: Addr, layout: Layout): Lives
    requires o in l.orms
  {
    l.(next := l.next + 1, orms := l.orms[o := l.orms[o].(lifetime := l.next, layout := layout)],
       alive := (l.alive - {l.orms[o].lifetime})[l.next := OfOrm(o)])
  }

  function Destroy(l: Lives, o: Addr): Lives
    requires o in l.orms
  {
    l.(orms := l.orms - {o}, alive := l.alive - {l.orms[o].lifetime})
  }

  // ---------------------------------------------------------------------------
  // The larger steps

  function NextConnect(s: State, h: Addr, pool: nat): State {
    s.(lives := NewHandle(s.lives, h),
       handles := s.handles[h := Handle(s.lives.next, 0, seq(pool + 1, _ => Conn([], Idle, true)))])
  }

  function NewQuery(l: Lives, h: Addr, conn: nat, amx: Addr, binding: Option<Binding>, callback: string): Query
    requires h in l.handles
  {
    Query(h, l.handles[h], conn, amx, if amx in l.scripts then Some(l.scripts[amx]) else None, binding,
          if binding.Some? then Some(binding.value.orm) else None, callback)
  }

  function NextIssue(s: State, h: Addr, conn: nat, amx: Addr, binding: Option<Binding>, callback: string): State
    requires h in s.lives.handles
  {
    s.(born := s.born + 1, queries := s.queries[s.born := NewQuery(s.lives, h, conn, amx, binding, callback)],
       main := Created(s.born), log := s.log.(lanes := s.log.lanes[s.born := Lane(h, conn)]))
  }

  /** The ORM natives read the variables the query needs, and queue on the handle the ORM was created with. A native
      that fails to generate the query reads some of them: that is a `UseOrm`, as are `orm_apply_cache` and the
      clearing of an ORM's variables. */
  function NextIssueOrm(s: State, o: Addr, kind: OrmQuery, amx: Addr, callback: string): State
    requires o in s.lives.orms
  {
    var orm := s.lives.orms[o];
    if orm.handle !in s.lives.handles then Fault(s)
    else
      NextIssue(Touch(s, Needed(orm.layout, kind)), orm.handle, 0, amx,
                Some(Binding(o, orm.lifetime, orm.layout, kind)), callback)
  }

  /** `CMySQLHandle::QueueQuery`: a missing pool and a full queue refuse the query, and the native deletes it. */
  function NextPush(s: State, q: QueryId): State {
    if q !in s.queries || s.queries[q].handle !in s.handles then Fault(s)
    else
      var h, i := s.queries[q].handle, s.queries[q].conn;
      if HasConn(s, h, i) && |ConnAt(s, h, i).queue| < QUEUE_CAPACITY then
        var c := ConnAt(s, h, i);
        SetConn(s, h, i, c.(queue := c.queue + [q])).(main := Pushed(h),
                                                      log := s.log.(submitted := s.log.submitted + [q]))
      else DeleteQuery(s, q).(main := Free)
  }

  function NextCount(s: State, h: Addr): State {
    if h !in s.handles then Fault(s)
    else
      s.(handles := s.handles[h := s.handles[h].(counter := (s.handles[h].counter + 1) % WORD)], main := Free)
  }

  function NextTake(s: State, h: Addr, i: nat): State
    requires HasConn(s, h, i) && ConnAt(s, h, i).queue != []
  {
    var c := ConnAt(s, h, i);
    SetConn(s, h, i, c.(queue := c.queue[1..], worker := Executing(c.queue[0])))
  }

  /** A failed query becomes a call of OnQueryError, without its ORM; one with no result loses its callback. */
  function Finished(x: Query, outcome: Outcome): Query {
    match outcome
    case Done => x
    case Failed => x.(target := None, callback := "OnQueryError")
    case Unstored => x.(callback := "")
  }

  /** Every path ends by counting the query off its handle. */
  function NextExecute(s: State, h: Addr, i: nat, outcome: Outcome): State
    requires HasConn(s, h, i) && ConnAt(s, h, i).worker.Executing?
  {
    var q := ConnAt(s, h, i).worker.query;
    if q !in s.queries || s.queries[q].handle !in s.handles then Fault(s)
    else
      var x := s.queries[q];
      var handle := s.handles[x.handle];
      var s1 := s.(handles := s.handles[x.handle := handle.(counter := (handle.counter + WORD - 1) % WORD)],
                   queries := s.queries[q := Finished(x, outcome)]);
      SetConn(s1, h, i, ConnAt(s1, h, i).(worker := Executed(q)))
  }

  /** A full callback queue refuses the query, and the worker deletes it. */
  function NextDeliver(s: State, h: Addr, i: nat): State
    requires HasConn(s, h, i) && ConnAt(s, h, i).worker.Executed?
  {
    var c := ConnAt(s, h, i);
    var s1 := SetConn(s, h, i, c.(worker := Idle));
    if |s.callbacks| < CALLBACK_CAPACITY then s1.(callbacks := s.callbacks + [c.worker.query])
    else DeleteQuery(s1, c.worker.query)
  }

  function NextClose(s: State, h: Addr): State
    requires h in s.lives.handles
  {
    s.(lives := Retire(s.lives, h), main := Stopping(h, 0), log := s.log.(closed := true))
  }

  /** Stops the next connection's worker, or, after the last one, deletes the handle. */
  function NextStop(s: State, h: Addr, i: nat): State {
    if HasConn(s, h, i) then SetConn(s, h, i, ConnAt(s, h, i).(running := false)).(main := Joining(h, i))
    else if h !in s.handles || exists j :: 0 <= j < |s.handles[h].conns| && !s.handles[h].conns[j].worker.Exited?
    then Fault(s)
    else s.(handles := s.handles - {h}, main := Sweeping(h, []))
  }

  /** The connection's destructor deletes what is left in its queue. */
  function NextDrain(s: State, h: Addr, i: nat): State {
    if !HasConn(s, h, i) then Fault(s)
    else
      var c := ConnAt(s, h, i);
      if c.queue == [] then s.(main := Stopping(h, i + 1))
      else DeleteQuery(SetConn(s, h, i, c.(queue := c.queue[1..])), c.queue[0])
  }

  /** `ClearByHandle`, the first loop: one query is deleted or put aside. */
  function NextSweep(s: State, h: Addr, kept: seq<QueryId>): State {
    if s.callbacks == [] then s.(main := Restoring(kept))
    else
      var q := s.callbacks[0];
      var s1 := s.(callbacks := s.callbacks[1..]);
      if q !in s.queries then Fault(s)
      else if s.queries[q].handle == h then DeleteQuery(s1, q)
      else s1.(main := Sweeping(h, kept + [q]))
  }

  /** `ClearByHandle`, the second loop: a query is put back, or lost if workers have filled the queue meanwhile. */
  function NextRestore(s: State, kept: seq<QueryId>): State {
    if kept == [] then s.(main := Free)
    else if |s.callbacks| < CALLBACK_CAPACITY then
      s.(callbacks := s.callbacks + [kept[0]], main := Restoring(kept[1..]))
    else s.(lost := s.lost + {kept[0]}, main := Restoring(kept[1..]))
  }

  /** `ProcessCallbacks` from the cancellation check to the call of the public function. */
  function NextDispatch(s: State, q: QueryId, found: bool, fits: bool): State {
    if q !in s.queries then Fault(s)
    else if Cancelled(s, s.queries[q]) then DeleteQuery(s, q).(tick := NoTick)
    else if s.queries[q].target.Some? && s.queries[q].target.value !in s.lives.orms then Fault(s)
    else if s.queries[q].callback == "" || !found then
      DeleteQuery(s, q).(tick := NoTick, log := s.log.(applied := NowApplied(s, q), stray := NowStray(s, q, fits)))
    else if s.queries[q].owner !in s.lives.scripts || !Usable(s, s.queries[q].handle) then Fault(s)
    else
      var x := s.queries[q];
      s.(tick := Running(q, s.lives.handles[x.handle]),
         log := s.log.(applied := NowApplied(s, q), stray := NowStray(s, q, fits),
                       runs := s.log.runs + [Run(q, x.script, s.lives.scripts[x.owner])]))
  }

  /** A result that fits is written to the ORM's variables or its key. */
  predicate NowStray(s: State, q: QueryId, fits: bool)
    requires q in s.queries
  {
    var x := s.queries[q];
    fits && x.target.Some? && x.target.value in s.lives.orms && x.binding.Some?
    && !AllLoaded(s.lives, Written(s.lives.orms[x.target.value].layout, x.binding.value.kind))
  }

  function NowApplied(s: State, q: QueryId): seq<Applied>
    requires q in s.queries
  {
    s.log.applied + Application(s.lives, q, s.queries[q])
  }

  /** Results of SELECT and INSERT are applied. */
  function Application(l: Lives, q: QueryId, x: Query): seq<Applied> {
    if x.target.Some? && x.target.value in l.orms && x.binding.Some? && x.binding.value.kind in {Select, Insert} then
      [Applied(q, x.binding.value.layout, l.orms[x.target.value].layout)]
    else []
  }

  /** After the public function: the handle is used only if its lifetime has not ended meanwhile. */
  function NextReturn(s: State, q: QueryId, lifetime: Token): State {
    if q !in s.queries || (!Expired(s, lifetime) && s.queries[q].handle !in s.handles) then Fault(s)
    else DeleteQuery(s, q).(tick := NoTick)
  }

  /** The state after a list of steps; a step that is not possible when its turn comes is passed over. */
  function After(steps: seq<Step>): State {
    if steps == [] then Init()
    else
      var s := After(steps[..|steps| - 1]);
      var t := steps[|steps| - 1];
      if Enabled(s, t) then Next(s, t) else s
  }
}
