/** `CMySQLQuery`: the three ways of executing a query, above all `ExecuteTransaction` against a server seen through the
    connector's calls.

    The log of a connection holds every `mysql_real_query` with the server's reply. `IsRun` says which logs one
    transaction may leave; `Play` says what a log does to the database. */
module Transaction {
  import opened Wrappers

  // ---------------------------------------------------------------------------
  // The connector

  datatype Command = Start | Statement(text: string) | Commit | Rollback

  function CommandText(c: Command): string {
    match c
    case Start => "START TRANSACTION"
    case Statement(t) => t
    case Commit => "COMMIT"
    case Rollback => "ROLLBACK"
  }

  datatype Fault = Fault(errno: nat, text: string)

  /** One result set of a statement: whether storing it succeeds, its column count, the code of the
      `mysql_next_result` after it (0 for one more set, negative for none, positive for an error), and the error. */
  datatype ResultSet = ResultSet(stored: bool, columns: nat, next: int, fault: Fault)

  datatype Reply = Refused(fault: Fault) | Done(affected: nat, insertId: nat, sets: seq<ResultSet>)

  datatype Entry = Entry(command: Command, reply: Reply)

  /** A statement has at least one result set, and only the last one is not followed by another. */
  predicate Finite(r: Reply) {
    r.Done? ==> r.sets != [] && forall i :: 0 <= i < |r.sets| ==> (r.sets[i].next == 0 <==> i < |r.sets| - 1)
  }

  /** Only statements have several result sets. */
  predicate Obeys(cs: seq<Command>, r: Reply) {
    Finite(r) && (r.Done? && cs != [] && !cs[|cs| - 1].Statement? ==> |r.sets| == 1)
  }

  function Commands(es: seq<Entry>): seq<Command> {
    seq(|es|, i requires 0 <= i < |es| => es[i].command)
  }

  /** The i-th reply is the server's, to all commands up to it. */
  predicate Answers(server: seq<Command> -> Reply, es: seq<Entry>, i: nat)
    requires i < |es|
  {
    es[i].reply == server(Commands(es[..i + 1]))
  }

  const OUT_OF_SYNC := Fault(2014, "Commands out of sync; you can't run this command now")
  const TWO64 := 0x1_0000_0000_0000_0000
  const TWO32 := 0x1_0000_0000

  class Connection {
    /** The server: its reply to the last command, given all commands so far. */
    const server: seq<Command> -> Reply
    var log: seq<Entry>
    /** The unread result sets of the last statement; the first is the current one. */
    var pending: seq<ResultSet>
    var fault: Fault
    /** How many commands have reached the server. */
    ghost var served: nat

    constructor (server: seq<Command> -> Reply)
      requires forall cs :: Obeys(cs, server(cs))
      ensures Valid() && log == [] && Idle() && this.server == server
    {
      this.server := server;
      log, pending, fault, served := [], [], Fault(0, ""), 0;
    }

    /** The server has answered the first commands, and the connector has refused all later ones. */
    ghost predicate Valid()
      reads this
    {
      && (forall cs :: Obeys(cs, server(cs)))
      && (forall i :: 0 <= i < |pending| ==> (pending[i].next == 0 <==> i < |pending| - 1))
      && served <= |log| && (Idle() ==> served == |log|)
      && (forall i :: 0 <= i < served ==> Answers(server, log, i))
      && (forall i :: served <= i < |log| ==> log[i].reply == Refused(OUT_OF_SYNC))
    }

    /** No result set is left that would put the next command out of sync. */
    predicate Idle()
      reads this
    {
      |pending| <= 1
    }

    /** While a further result set is unread, a command is refused without reaching the server. */
    method RealQuery(command: Command) returns (failed: bool)
      requires Valid()
      modifies this`log, this`pending, this`fault, this`served
      ensures Valid()
      ensures log == old(log) + [Entry(command, Replied())] && Finite(Replied())
      ensures !failed ==> served == |log|
      ensures failed <==> Replied().Refused?
      ensures failed ==> fault == Replied().fault && pending == old(pending)
      ensures !failed ==> pending == Replied().sets != [] && (command.Statement? || Idle())
      ensures !old(Idle()) ==> Replied() == Refused(OUT_OF_SYNC)
    {
      var reply := if |pending| > 1 then Refused(OUT_OF_SYNC) else server(Commands(log) + [command]);
      ghost var before := log;
      log := log + [Entry(command, reply)];
      assert log[..|log|] == log && Commands(log) == Commands(before) + [command];
      forall i | 0 <= i < served ensures Answers(server, log, i) {
        assert log[..i + 1] == before[..i + 1] && Answers(server, before, i);
      }
      if |pending| <= 1 {
        served := |log|;
      }
      if reply.Refused? {
        fault := reply.fault;
        return true;
      }
      pending := reply.sets;
      return false;
    }

    /** The reply to the last command. */
    function Replied(): Reply
      reads this
    {
      if log == [] then Refused(OUT_OF_SYNC) else log[|log| - 1].reply
    }

    method StoreResult() returns (stored: bool)
      requires Valid() && pending != []
      modifies this`fault
      ensures Valid() && stored == pending[0].stored
      ensures fault == if stored || pending[0].columns == 0 then old(fault) else pending[0].fault
    {
      stored := pending[0].stored;
      if !stored && pending[0].columns != 0 {
        fault := pending[0].fault;
      }
    }

    method NextResult() returns (code: int)
      requires Valid() && pending != [] && served == |log|
      modifies this`pending, this`fault
      ensures Valid() && code == old(pending)[0].next && pending == old(pending)[1..]
      ensures code == 0 <==> pending != []
      ensures fault == if code > 0 then old(pending)[0].fault else old(fault)
    {
      code := pending[0].next;
      if code > 0 {
        fault := pending[0].fault;
      }
      pending := pending[1..];
    }

    /** Reads what is left of a statement's result sets, or leaves them. */
    method CloseStatement(flushes: bool)
      requires Valid() && served == |log|
      modifies this`pending
      ensures Valid() && pending == if flushes then [] else old(pending)
    {
      if flushes {
        pending := [];
      }
    }
  }

  // ---------------------------------------------------------------------------
  // The logs of one transaction

  /** The set was stored, or there was nothing to store, and moving past it met no error. */
  predicate GoodSet(s: ResultSet) {
    (s.stored || s.columns == 0) && s.next <= 0
  }

  /** The statement succeeded, and so did each of its result sets. */
  predicate Clean(r: Reply) {
    r.Done? && forall i :: 0 <= i < |r.sets| ==> GoodSet(r.sets[i])
  }

  /** es are the statements qs, in order, all clean except possibly the last. */
  predicate IsPrefix(qs: seq<string>, es: seq<Entry>) {
    && |es| <= |qs|
    && (forall i :: 0 <= i < |es| ==> es[i].command == Statement(qs[i]))
    && (forall i :: 0 <= i < |es| - 1 ==> Clean(es[i].reply))
  }

  predicate AllClean(es: seq<Entry>) {
    forall i :: 0 <= i < |es| ==> Clean(es[i].reply)
  }

  /** After a START that succeeded: the statements and how they end. */
  predicate IsBody(qs: seq<string>, es: seq<Entry>, k: nat, ok: bool) {
    && k <= |es| && IsPrefix(qs, es[..k])
    && if ok then k == |qs| && AllClean(es[..k]) && |es| == k + 1 && es[k].command == Commit && es[k].reply.Done?
       else if |es| == k + 1 then k > 0 && !Clean(es[k - 1].reply) && es[k].command == Rollback
       else k == |qs| && AllClean(es[..k]) && |es| == k + 2
            && es[k].command == Commit && es[k].reply.Refused? && es[k + 1].command == Rollback
  }

  /** The commands one transaction leaves in the log of its connection, and whether it succeeded. */
  ghost predicate IsRun(qs: seq<string>, es: seq<Entry>, ok: bool) {
    if qs == [] then es == [] && !ok
    else
      && es != [] && es[0].command == Start
      && if es[0].reply.Refused? then |es| == 1 && !ok else exists k: nat :: IsBody(qs, es[1..], k, ok)
  }

  predicate AllRefused(es: seq<Entry>) {
    forall i :: 0 <= i < |es| ==> es[i].reply == Refused(OUT_OF_SYNC)
  }

  /** The sum of the statements' affected rows, as the program's unsigned 64-bit integer holds it. */
  function Affected(es: seq<Entry>): nat {
    if es == [] then 0
    else
      var last := es[|es| - 1];
      (Affected(es[..|es| - 1]) + (if last.reply.Done? then last.reply.affected else 0)) % TWO64
  }

  /** The last insert id that is not zero, or zero. */
  function InsertId(es: seq<Entry>): nat {
    if es == [] then 0
    else
      var last := es[|es| - 1];
      if last.reply.Done? && last.reply.insertId != 0 then last.reply.insertId else InsertId(es[..|es| - 1])
  }

  /** The total does not depend on how the statements are grouped. */
  lemma {:induction false} AffectedAppend(a: seq<Entry>, b: seq<Entry>)
    ensures Affected(a + b) == (Affected(a) + Affected(b)) % 0x1_0000_0000_0000_0000
    decreases |b|
  {
    if b == [] {
      assert a + b == a;
      AffectedIsWord(a);
    } else {
      hide Affected, AffectedBy;
      var init, last := b[..|b| - 1], b[|b| - 1];
      SplitLast(a, b, init, last);
      AffectedAppend(a, init);
      AffectedMore(a + init, last);
      AffectedMore(init, last);
      SameRemainder(Affected(a), Affected(init), AffectedBy(last));
    }
  }

  lemma SplitLast<T>(a: seq<T>, b: seq<T>, init: seq<T>, last: T)
    requires b != [] && init == b[..|b| - 1] && last == b[|b| - 1]
    ensures a + b == a + init + [last] && b == init + [last]
  {
  }

  function AffectedBy(e: Entry): nat {
    if e.reply.Done? then e.reply.affected else 0
  }

  lemma AffectedMore(es: seq<Entry>, e: Entry)
    ensures Affected(es + [e]) == (Affected(es) + AffectedBy(e)) % TWO64
  {
    assert (es + [e])[..|es|] == es;
  }

  lemma AffectedIsWord(es: seq<Entry>)
    ensures Affected(es) < 0x1_0000_0000_0000_0000
  {
  }

  lemma SameRemainder(x: nat, y: nat, z: nat)
    ensures ((x + y) % TWO64 + z) % TWO64 == (x + (y + z) % TWO64) % TWO64
  {
    var q, r := (x + y) / TWO64, (y + z) / TWO64;
    assert (x + y) % TWO64 + z == x + y + z - TWO64 * q && x + (y + z) % TWO64 == x + y + z - TWO64 * r;
  }

  /** The last insert id that is not zero counts. */
  lemma {:induction false} InsertIdAppend(a: seq<Entry>, b: seq<Entry>)
    ensures InsertId(a + b) == if InsertId(b) != 0 then InsertId(b) else InsertId(a)
    decreases |b|
  {
    if b == [] {
      assert a + b == a;
    } else {
      assert (a + b)[..|a + b| - 1] == a + b[..|b| - 1];
      InsertIdAppend(a, b[..|b| - 1]);
    }
  }

  lemma TotalsOfOne(e: Entry)
    ensures Affected([e]) == if e.reply.Done? then e.reply.affected % 0x1_0000_0000_0000_0000 else 0
    ensures InsertId([e]) == if e.reply.Done? then e.reply.insertId else 0
  {
    assert [e][..0] == [];
  }

  /** The result sets from the first one that fails on. */
  function FirstBad(sets: seq<ResultSet>): (r: seq<ResultSet>)
    ensures r == [] <==> forall i :: 0 <= i < |sets| ==> GoodSet(sets[i])
  {
    if sets == [] || !GoodSet(sets[0]) then sets else FirstBad(sets[1..])
  }

  /** What a failure leaves unread: everything from a set that could not be stored on, and nothing after
      `mysql_next_result` reported an error. */
  function LeftOver(sets: seq<ResultSet>): seq<ResultSet> {
    var bad := FirstBad(sets);
    if bad == [] || bad[0].stored || bad[0].columns == 0 then [] else bad
  }

  lemma {:induction false} FirstBadAt(sets: seq<ResultSet>, n: nat)
    requires n < |sets| && !GoodSet(sets[n]) && forall j :: 0 <= j < n ==> GoodSet(sets[j])
    ensures FirstBad(sets) == sets[n..]
  {
    if n > 0 {
      FirstBadAt(sets[1..], n - 1);
      assert sets[1..][n - 1..] == sets[n..];
    }
  }

  lemma NoStatements(qs: seq<string>)
    ensures IsPrefix(qs, []) && AllClean([]) && Affected([]) == 0 && InsertId([]) == 0
  {
  }

  /** What the next statement's reply adds. */
  lemma OneStatementMore(qs: seq<string>, before: seq<Entry>, e: Entry)
    requires |before| < |qs| && IsPrefix(qs, before) && AllClean(before) && e.command == Statement(qs[|before|])
    ensures IsPrefix(qs, before + [e]) && (Clean(e.reply) ==> AllClean(before + [e]))
  {
    hide Clean;
  }

  lemma TotalsMore(before: seq<Entry>, e: Entry)
    requires e.reply.Done?
    ensures Affected(before + [e]) == (Affected(before) + e.reply.affected) % TWO64
    ensures InsertId(before + [e]) == if e.reply.insertId != 0 then e.reply.insertId else InsertId(before)
  {
    assert (before + [e])[..|before|] == before;
  }

  lemma ReplyFault(e: Entry)
    ensures e.reply.Refused? ==> !Clean(e.reply) && FailureOfEntry(e) == e.reply.fault
    ensures e.reply.Done? ==>
              if forall i :: 0 <= i < |e.reply.sets| ==>
                   (e.reply.sets[i].stored || e.reply.sets[i].columns == 0) && e.reply.sets[i].next <= 0
              then Clean(e.reply)
              else !Clean(e.reply) && FirstBad(e.reply.sets) != []
                   && FailureOfEntry(e) == FirstBad(e.reply.sets)[0].fault
  {
    if e.reply.Done? {
      assert forall i :: 0 <= i < |e.reply.sets| ==>
               GoodSet(e.reply.sets[i])
               == ((e.reply.sets[i].stored || e.reply.sets[i].columns == 0) && e.reply.sets[i].next <= 0);
    }
  }

  // ---------------------------------------------------------------------------
  // The query object

  datatype Param = CellParam(value: int) | TextParam(text: string)

  /** A query's result: the totals of a statement without rows or of a transaction, or a result set. */
  datatype Stored = Totals(affected: nat, insertId: nat, query: string) | RowsOf(query: string)

  /** What a prepared statement meets at its calls other than the execution itself; None is success. Closing it reads
      its further result sets or does not. */
  datatype Prepared = Prepared(
    init: Option<Fault>,
    prepare: Option<Fault>,
    expected: nat,
    bind: Option<Fault>,
    store: Option<Fault>,
    flushes: bool)

  const WRONG_COUNT: Fault := Fault(2031, "prepared statement parameter count does not match")

  /** The parameters of OnQueryError. */
  function ErrorCall(fault: Fault, callback: string, failed: string, id: int): seq<Param> {
    [CellParam(fault.errno), TextParam(fault.text), TextParam(callback), TextParam(failed), CellParam(id)]
  }

  /** The three ways of executing a query. */
  datatype Kind = PlainQuery | PreparedQuery | TransactionQuery

  class Handle {
    const id: int
    var counter: nat

    constructor (id: int) ensures this.id == id && counter == 0 { this.id := id; counter := 0; }

    method DecreaseQueryCounter()
      modifies this
      ensures counter == (old(counter) - 1) % TWO32
    {
      counter := (counter - 1) % TWO32;
    }
  }

  class Query {
    const kind: Kind
    const text: string
    const queries: seq<string>
    const unthreaded: bool
    const handle: Handle
    var callback: string
    var params: seq<Param>     // the top of the stack last
    var ormBound: bool         // the query carries an ORM object
    const ormStores: bool      // and is one of its SELECT or INSERT queries
    const given: nat           // how many parameters are bound
    var result: Option<Stored>

    constructor (queries: seq<string>, unthreaded: bool, handle: Handle, callback: string, params: seq<Param>)
      ensures this.queries == queries && this.unthreaded == unthreaded && this.handle == handle
      ensures this.callback == callback && this.params == params && !ormBound && result == None
      ensures text == "transaction" && kind == TransactionQuery
    {
      kind := TransactionQuery;
      this.text, this.queries, this.unthreaded, this.handle := "transaction", queries, unthreaded, handle;
      this.callback, this.params, ormBound, result := callback, params, false, None;
    }

    /** A query that is no transaction. */
    constructor OfText(text: string, prepared: bool, given: nat, unthreaded: bool, handle: Handle, callback: string,
                       params: seq<Param>, ormBound: bool, ormStores: bool)
      ensures kind == if prepared then PreparedQuery else PlainQuery
      ensures this.text == text && this.given == given && this.unthreaded == unthreaded && this.handle == handle
      ensures this.callback == callback && this.params == params && result == None
      ensures this.ormBound == ormBound && this.ormStores == ormStores
    {
      kind := if prepared then PreparedQuery else PlainQuery;
      this.text, this.given, this.unthreaded, this.handle := text, given, unthreaded, handle;
      this.callback, this.params, this.ormBound, this.ormStores := callback, params, ormBound, ormStores;
      queries, result := [], None;
    }

    /** `SetTransactionQueryError`: a threaded query's callback becomes OnQueryError. */
    method SetError(fault: Fault, failed: string)
      modifies this
      ensures result == old(result)
      ensures unthreaded ==> callback == old(callback) && params == old(params) && ormBound == old(ormBound)
      ensures !unthreaded ==> callback == "OnQueryError" && !ormBound
      ensures !unthreaded ==> params == ErrorCall(fault, old(callback), failed, handle.id)
    {
      if !unthreaded {
        ormBound := false;
        params := [];
        params := params + [CellParam(fault.errno)];
        params := params + [TextParam(fault.text)];
        params := params + [TextParam(callback)];
        params := params + [TextParam(failed)];
        params := params + [CellParam(handle.id)];
        callback := "OnQueryError";
      }
    }

    /** The inner loop: reads the result sets of a statement until the last, or until one fails.
        It ends with every set read, or at a set that could not be stored. */
    method DrainSets(c: Connection) returns (success: bool)
      requires c.Valid() && c.pending != [] && c.served == |c.log|
      modifies c`pending, c`fault
      ensures c.Valid()
      ensures success <==>
                forall i :: 0 <= i < |old(c.pending)| ==>
                  (old(c.pending)[i].stored || old(c.pending)[i].columns == 0) && old(c.pending)[i].next <= 0
      ensures success ==> c.pending == [] && c.fault == old(c.fault)
      ensures !success ==> c.fault == FirstBad(old(c.pending))[0].fault
      ensures !success ==> c.pending == LeftOver(old(c.pending))
    {
      success := true;
      ghost var all := c.pending;
      ghost var n := 0;
      var more := true;
      while more
        invariant c.Valid() && 0 <= n <= |all| && success && c.pending == all[n..] && c.fault == old(c.fault)
        invariant forall j :: 0 <= j < n ==> GoodSet(all[j])
        invariant more <==> n < |all|
        decreases |all| - n
      {
        var stored := c.StoreResult();
        if !stored && c.pending[0].columns != 0 {
          FirstBadAt(all, n);
          return false;
        }
        var next := c.NextResult();
        n := n + 1;
        if next > 0 {
          FirstBadAt(all, n - 1);
          return false;
        }
        more := next == 0;
      }
    }

    /** The loop over the statements: it goes on while each is clean, with every result set read before the next. */
    method RunStatements(c: Connection)
      returns (success: bool, failedQuery: Command, affected: nat, insertId: nat, ghost body: seq<Entry>)
      requires c.Valid() && c.Idle() && queries != []
      modifies c`log, c`pending, c`fault, c`served
      ensures c.Valid() && c.log == old(c.log) + body && body != []
      ensures IsPrefix(queries, body) && failedQuery == body[|body| - 1].command
      ensures success ==> AllClean(body) && |body| == |queries| && c.pending == []
      ensures success ==> affected == Affected(body) && insertId == InsertId(body)
      ensures !success ==> !Clean(body[|body| - 1].reply) && c.fault == FailureOfEntry(body[|body| - 1])
      ensures !success && body[|body| - 1].reply.Done? ==> c.pending == LeftOver(body[|body| - 1].reply.sets)
      ensures !success && body[|body| - 1].reply.Refused? ==> c.Idle()
    {
      hide LeftOver, FirstBad, GoodSet, IsPrefix, AllClean, Clean, Affected, InsertId, FailureOfEntry;
      NoStatements(queries);
      success, failedQuery, affected, insertId, body := true, Start, 0, 0, [];
      var index := 0;
      while index < |queries|
        invariant c.Valid() && c.Idle() && c.log == old(c.log) + body
        invariant success && 0 <= index <= |queries| && |body| == index
        invariant IsPrefix(queries, body) && AllClean(body)
        invariant index > 0 ==> failedQuery == body[index - 1].command && c.pending == []
        invariant affected == Affected(body) && insertId == InsertId(body)
      {
        failedQuery := Statement(queries[index]);
        var refused := c.RealQuery(failedQuery);
        ghost var entry := Entry(failedQuery, c.Replied());
        ghost var before := body;
        body := before + [entry];
        OneStatementMore(queries, before, entry);
        ReplyFault(entry);
        if refused {
          return false, failedQuery, affected, insertId, body;
        }
        TotalsMore(before, entry);
        affected := (affected + c.Replied().affected) % TWO64;
        if c.Replied().insertId != 0 {
          insertId := c.Replied().insertId;
        }
        success := DrainSets(c);
        if !success {
          return;
        }
        index := index + 1;
      }
    }

    /** COMMIT if every statement was clean; ROLLBACK and the error report if one was not or COMMIT is refused. */
    method EndTransaction(c: Connection, clean: bool, lastQuery: Command, ghost body: seq<Entry>)
      returns (success: bool, ghost ending: seq<Entry>)
      requires c.Valid() && body != [] && IsPrefix(queries, body) && lastQuery == body[|body| - 1].command
      requires clean ==> AllClean(body) && |body| == |queries| && c.Idle()
      requires !clean ==> !Clean(body[|body| - 1].reply) && c.fault == FailureOfEntry(body[|body| - 1])
      requires !clean && body[|body| - 1].reply.Done? ==> c.pending == LeftOver(body[|body| - 1].reply.sets)
      requires !clean && body[|body| - 1].reply.Refused? ==> c.Idle()
      modifies c`log, c`pending, c`fault, c`served, this
      ensures c.Valid() && c.log == old(c.log) + ending
      ensures IsBody(queries, body + ending, |body|, success)
      ensures success ==> clean && unchanged(this)
      ensures c.Idle() <==> !RollbackBlocked(body + ending)
      ensures !success ==> ending != [] && !old(clean && !c.Idle()) && result == old(result)
      ensures |body + ending| > 1
      ensures RollbackBlocked(body + ending) ==> ending[|ending| - 1].reply == Refused(OUT_OF_SYNC)
      ensures !success && unthreaded ==> callback == old(callback) && params == old(params) && ormBound == old(ormBound)
      ensures !success && !unthreaded ==> callback == "OnQueryError" && !ormBound
      ensures !success && !unthreaded ==>
        params == ErrorCall(FailureOf(body + ending), old(callback), CommandText(FailedCommand(body + ending)),
                            handle.id)
    {
      success, ending := clean, [];
      var failedQuery := lastQuery;
      if success {
        failedQuery := Commit;
        var refused := c.RealQuery(failedQuery);
        ending := [Entry(Commit, c.Replied())];
        if refused {
          success := false;
        }
      }
      if !success {
        var fault := c.fault;
        var ignored := c.RealQuery(Rollback);
        ending := ending + [Entry(Rollback, c.Replied())];
        SetError(fault, CommandText(failedQuery));
      }
      assert (body + ending)[..|body|] == body;
    }

    /** What follows a START that succeeded. */
    method RunStarted(c: Connection, ghost start: seq<Entry>)
      returns (success: bool, ghost es: seq<Entry>, ghost body: seq<Entry>)
      requires c.Valid() && c.Idle() && queries != []
      requires |start| == 1 && start[0].command == Start && start[0].reply.Done?
      modifies c`log, c`pending, c`fault, c`served, this
      ensures c.Valid() && start <= es && |es| > 1 && c.log == old(c.log) + es[1..] && IsRun(queries, es, success)
      ensures c.Idle() <==> !RollbackBlocked(es)
      ensures RollbackBlocked(es) ==> es[|es| - 1].reply == Refused(OUT_OF_SYNC)
      ensures success && (unthreaded || old(callback) != "") ==>
        result == Some(Totals(Affected(body), InsertId(body), text))
      ensures success ==> es[1..|es| - 1] == body
      ensures !success || (!unthreaded && old(callback) == "") ==> result == old(result)
      ensures success || unthreaded ==> callback == old(callback) && params == old(params) && ormBound == old(ormBound)
      ensures !success && !unthreaded ==> callback == "OnQueryError" && !ormBound
      ensures !success && !unthreaded ==>
        params == ErrorCall(FailureOf(es), old(callback), CommandText(FailedCommand(es)), handle.id)
    {
      hide Affected, InsertId, Clean, AllClean, IsPrefix, IsBody;
      hide IsRun, FirstBad, FailureOf, FailureOfEntry;
      hide FailedCommand, RollbackBlocked, LeftOver, Answers, Obeys, CommandText, ErrorCall;
      var failedQuery, affected, insertId;
      ghost var ending;
      success, failedQuery, affected, insertId, body := RunStatements(c);
      success, ending := EndTransaction(c, success, failedQuery, body);
      if success && (unthreaded || callback != "") {
        result := Some(Totals(affected, insertId, text));
      }
      es := start + body + ending;
      Assembled(queries, start, body, ending, success);
    }

    /** The commands of this run on c are one transaction of `queries`; it succeeds exactly when COMMIT does.
        Success reports the totals; failure of a threaded query becomes OnQueryError with the failing command.
        The connection goes out of sync exactly when the run stops at an unstorable result set with more to come; then
        ROLLBACK is refused, and so is START on a connection that was out of sync before.
        In a run that fails, `at` is the first command that is refused or has a result set that fails, and `bad` is the
        first such set. */
    method ExecuteTransaction(c: Connection)
      returns (success: bool, ghost es: seq<Entry>, ghost at: nat, ghost bad: nat)
      requires c.Valid()
      requires handle.counter < TWO32
      modifies c`log, c`pending, c`fault, c`served, this, handle
      ensures c.Valid()
      ensures c.log == old(c.log) + es && IsRun(queries, es, success)
      ensures handle.counter == if unthreaded then old(handle.counter) else (old(handle.counter) - 1) % 0x1_0000_0000
      ensures c.Idle() <==> old(c.Idle()) && !RollbackBlocked(es)
      ensures RollbackBlocked(es) ==> es[|es| - 1].reply == Refused(OUT_OF_SYNC)
      ensures !old(c.Idle()) ==> AllRefused(es) && success == false
      ensures success && (unthreaded || old(callback) != "") ==>
        |es| > 1 && result == Some(Totals(Affected(es[1..|es| - 1]), InsertId(es[1..|es| - 1]), text))
      ensures !success || (!unthreaded && old(callback) == "") ==> result == old(result)
      ensures success || unthreaded ==> callback == old(callback) && params == old(params) && ormBound == old(ormBound)
      ensures !success && !unthreaded ==> callback == "OnQueryError" && !ormBound
      ensures !success && !unthreaded && queries == [] ==>
        params == [CellParam(1064), TextParam("transaction has no queries"), TextParam(old(callback)),
                   TextParam("START TRANSACTION"), CellParam(handle.id)]
      ensures !success && queries != [] ==> FailsFirst(es, at, bad)
      ensures !success && !unthreaded && queries != [] ==>
        && at <= |queries| + 1
        && var fault := if es[at].reply.Refused? then es[at].reply.fault else es[at].reply.sets[bad].fault;
           params == [CellParam(fault.errno), TextParam(fault.text), TextParam(old(callback)),
                      TextParam(if at == 0 then "START TRANSACTION"
                                else if at <= |queries| then queries[at - 1] else "COMMIT"),
                      CellParam(handle.id)]
    {
      hide Affected, InsertId, IsRun, FailureOf, FailedCommand, RollbackBlocked, FailsFirst, AllRefused;
      success, es := TryTransaction(c);
      at, bad := 0, 0;
      if !success && queries != [] {
        at, bad := FailurePoint(queries, es);
      }
      CountOff();
    }

    /** Everything but the count. */
    method TryTransaction(c: Connection) returns (success: bool, ghost es: seq<Entry>)
      requires c.Valid()
      modifies c`log, c`pending, c`fault, c`served, this
      ensures c.Valid() && c.log == old(c.log) + es && IsRun(queries, es, success)
      ensures c.Idle() <==> old(c.Idle()) && !RollbackBlocked(es)
      ensures RollbackBlocked(es) ==> es[|es| - 1].reply == Refused(OUT_OF_SYNC)
      ensures !old(c.Idle()) ==> AllRefused(es) && !success
      ensures success && (unthreaded || old(callback) != "") ==>
        |es| > 1 && result == Some(Totals(Affected(es[1..|es| - 1]), InsertId(es[1..|es| - 1]), text))
      ensures !success || (!unthreaded && old(callback) == "") ==> result == old(result)
      ensures success || unthreaded ==> callback == old(callback) && params == old(params) && ormBound == old(ormBound)
      ensures !success && !unthreaded ==> callback == "OnQueryError" && !ormBound
      ensures !success && !unthreaded ==>
        params == ErrorCall(FailureOf(es), old(callback), CommandText(FailedCommand(es)), handle.id)
      ensures queries == [] ==> FailureOf(es) == NO_QUERIES && FailedCommand(es) == Start
    {
      hide Affected, InsertId, IsRun, FailureOf, FailedCommand, RollbackBlocked, ErrorCall;
      success, es := false, [];
      if queries == [] {
        EmptyRuns(queries);
        SetError(NO_QUERIES, CommandText(Start));
      } else {
        var failed := c.RealQuery(Start);
        es := [Entry(Start, c.Replied())];
        if failed {
          SetError(c.fault, CommandText(Start));
          RefusedRuns(queries, es[0]);
        } else {
          ghost var body;
          success, es, body := RunStarted(c, es);
        }
      }
    }

    /** Every path of execution ends here. */
    method CountOff()
      requires handle.counter < TWO32
      modifies handle
      ensures handle.counter == if unthreaded then old(handle.counter) else (old(handle.counter) - 1) % 0x1_0000_0000
    {
      if !unthreaded {
        handle.DecreaseQueryCounter();
      }
    }

    /** The first result set: stored if someone can use it. */
    method KeepResult(c: Connection)
      requires c.Valid() && c.pending != [] && c.log != [] && c.Replied().Done? && c.pending == c.Replied().sets
      modifies c`fault, this`result, this`callback
      ensures c.Valid()
      ensures var wanted := unthreaded || (ormBound && ormStores) || old(callback) != "";
              var first := c.Replied().sets[0];
              && (!wanted ==> callback == old(callback) && result == old(result))
              && (wanted && first.columns == 0 ==>
                    callback == old(callback)
                    && result == Some(Totals(c.Replied().affected, c.Replied().insertId, text)))
              && (wanted && first.columns > 0 && first.stored ==>
                    callback == old(callback) && result == Some(RowsOf(text)))
              && (wanted && first.columns > 0 && !first.stored ==> callback == "" && result == old(result))
    {
      var stored := c.StoreResult();
      var isOrm := ormBound && ormStores;
      if unthreaded || isOrm || callback != "" {
        if c.pending[0].columns == 0 {
          result := Some(Totals(c.Replied().affected, c.Replied().insertId, text));
        } else if stored {
          result := Some(RowsOf(text));
        } else {
          callback := "";
        }
      }
    }

    /** The loop that frees the further result sets. */
    method FreeRest(c: Connection)
      requires c.Valid() && c.pending != [] && c.served == |c.log|
      modifies c`pending, c`fault
      ensures c.Valid() && c.pending == []
    {
      var next := c.NextResult();
      while next == 0
        invariant c.Valid() && c.served == |c.log| && (next == 0 <==> c.pending != [])
        decreases |c.pending|
      {
        var ignored := c.StoreResult();
        next := c.NextResult();
      }
    }

    /** `Execute` of a plain query. A result is stored only if someone can use it; without a set that should be there,
        the callback is dropped. All result sets are read, so that the connection stays as much in sync as it was. */
    method ExecuteText(c: Connection) returns (success: bool, ghost es: seq<Entry>)
      requires c.Valid() && handle.counter < TWO32
      modifies c`log, c`pending, c`fault, c`served, this, handle
      ensures c.Valid() && c.log == old(c.log) + es && |es| == 1 && es[0].command == Statement(text)
      ensures success <==> es[0].reply.Done?
      ensures es[0].reply.Done? ==> es[0].reply.sets != []
      ensures c.Idle() <==> old(c.Idle())
      ensures !old(c.Idle()) ==> AllRefused(es)
      ensures handle.counter == if unthreaded then old(handle.counter) else (old(handle.counter) - 1) % 0x1_0000_0000
      ensures success || unthreaded ==> params == old(params) && ormBound == old(ormBound)
      ensures !success && unthreaded ==> callback == old(callback)
      ensures !success && !unthreaded ==> callback == "OnQueryError" && !ormBound
      ensures !success && !unthreaded ==>
                params == [CellParam(es[0].reply.fault.errno), TextParam(es[0].reply.fault.text),
                           TextParam(old(callback)), TextParam(text), CellParam(handle.id)]
      ensures !success ==> result == old(result)
      ensures success ==>
                var wanted := unthreaded || (old(ormBound) && ormStores) || old(callback) != "";
                var first := es[0].reply.sets[0];
                && (!wanted ==> callback == old(callback) && result == old(result))
                && (wanted && first.columns == 0 ==>
                      callback == old(callback)
                      && result == Some(Totals(es[0].reply.affected, es[0].reply.insertId, text)))
                && (wanted && first.columns > 0 && first.stored ==>
                      callback == old(callback) && result == Some(RowsOf(text)))
                && (wanted && first.columns > 0 && !first.stored ==> callback == "" && result == old(result))
    {
      success := false;
      var failed := c.RealQuery(Statement(text));
      ghost var reply := c.Replied();
      es := [Entry(Statement(text), reply)];
      if !failed {
        KeepResult(c);
        FreeRest(c);
        success := true;
      } else {
        SetError(c.fault, text);
      }
      CountOff();
    }

    /** The execution of a prepared statement, its result, and its end. */
    method RunPrepared(c: Connection, p: Prepared) returns (success: bool, ghost es: seq<Entry>)
      requires c.Valid() && c.Idle()
      modifies c`log, c`pending, c`fault, c`served, this
      ensures c.Valid() && c.log == old(c.log) + es && |es| == 1 && es[0].command == Statement(text)
      ensures es[0].reply.Done? ==> es[0].reply.sets != []
      ensures var wanted := unthreaded || old(callback) != "";
              && (success <==>
                    es[0].reply.Done? && (wanted && es[0].reply.sets[0].columns > 0 ==> p.store.None?))
              && (success && wanted ==>
                    result == Some(if es[0].reply.sets[0].columns > 0 then RowsOf(text)
                                   else Totals(es[0].reply.affected, es[0].reply.insertId, text)))
              && (!success || !wanted ==> result == old(result))
      ensures !success && !unthreaded ==>
                var fault := if es[0].reply.Refused? then es[0].reply.fault else p.store.value;
                params == [CellParam(fault.errno), TextParam(fault.text), TextParam(old(callback)), TextParam(text),
                           CellParam(handle.id)]
      ensures c.Idle() <==> es[0].reply.Refused? || p.flushes || |es[0].reply.sets| <= 1
      ensures success || unthreaded ==> callback == old(callback) && params == old(params) && ormBound == old(ormBound)
      ensures !success && !unthreaded ==> callback == "OnQueryError" && !ormBound
    {
      success := false;
      var failed := c.RealQuery(Statement(text));
      es := [Entry(Statement(text), c.Replied())];
      if failed {
        SetError(c.fault, text);
      } else {
        var columns := c.pending[0].columns;
        if columns == 0 && (unthreaded || callback != "") {
          result := Some(Totals(c.Replied().affected, c.Replied().insertId, text));
          success := true;
        } else if columns != 0 && (unthreaded || callback != "") {
          success := p.store.None?;
          if success {
            result := Some(RowsOf(text));
          } else {
            SetError(p.store.value, text);
          }
        } else {
          success := true;
        }
        c.CloseStatement(p.flushes);
      }
    }

    /** `ExecutePrepared`: succeeds exactly if none of its calls fails, and otherwise reports the first that does. */
    method ExecutePrepared(c: Connection, p: Prepared) returns (success: bool, ghost es: seq<Entry>)
      requires c.Valid() && handle.counter < TWO32
      modifies c`log, c`pending, c`fault, c`served, this, handle
      ensures c.Valid() && c.log == old(c.log) + es
      ensures es == [] <==> p.init.Some? || !old(c.Idle()) || p.prepare.Some? || p.expected != given
                            || (given > 0 && p.bind.Some?)
      ensures es != [] ==>
                |es| == 1 && es[0].command == Statement(text) && (es[0].reply.Done? ==> es[0].reply.sets != [])
      ensures var wanted := unthreaded || old(callback) != "";
              && (success <==>
                    es != [] && es[0].reply.Done? && (wanted && es[0].reply.sets[0].columns > 0 ==> p.store.None?))
              && (success && wanted ==>
                    result == Some(if es[0].reply.sets[0].columns > 0 then RowsOf(text)
                                   else Totals(es[0].reply.affected, es[0].reply.insertId, text)))
              && (!success || !wanted ==> result == old(result))
      ensures !success && !unthreaded ==>
                var fault := if p.init.Some? then p.init.value
                             else if !old(c.Idle()) then
                               Fault(2014, "Commands out of sync; you can't run this command now")
                             else if p.prepare.Some? then p.prepare.value
                             else if p.expected != given then
                               Fault(2031, "prepared statement parameter count does not match")
                             else if given > 0 && p.bind.Some? then p.bind.value
                             else if es[0].reply.Refused? then es[0].reply.fault
                             else p.store.value;
                params == [CellParam(fault.errno), TextParam(fault.text), TextParam(old(callback)), TextParam(text),
                           CellParam(handle.id)]
      ensures c.Idle() <==>
                old(c.Idle()) && (es == [] || es[0].reply.Refused? || p.flushes || |es[0].reply.sets| <= 1)
      ensures handle.counter == if unthreaded then old(handle.counter) else (old(handle.counter) - 1) % 0x1_0000_0000
      ensures success || unthreaded ==> callback == old(callback) && params == old(params) && ormBound == old(ormBound)
      ensures !success && !unthreaded ==> callback == "OnQueryError" && !ormBound
    {
      es := [];
      if p.init.Some? {
        SetError(p.init.value, text);
        CountOff();
        return false, es;
      }
      success := false;
      if !c.Idle() {
        SetError(OUT_OF_SYNC, text);
      } else if p.prepare.Some? {
        SetError(p.prepare.value, text);
      } else if p.expected != given {
        SetError(WRONG_COUNT, text);
      } else if given > 0 && p.bind.Some? {
        SetError(p.bind.value, text);
      } else {
        success, es := RunPrepared(c, p);
      }
      CountOff();
    }

    /** `Execute`: the choice among the three. What is left in the log is one job; out of sync, nothing of it reaches
        the server, and a transaction blocked by result sets puts the connection out of sync. */
    method Execute(c: Connection, p: Prepared) returns (success: bool, ghost job: Job)
      requires c.Valid() && handle.counter < TWO32
      modifies c`log, c`pending, c`fault, c`served, this, handle
      ensures c.Valid() && c.log == old(c.log) + job.entries && IsJob(job)
      ensures job.Transacted? <==> kind == TransactionQuery
      ensures job.Transacted? ==> job.queries == queries && job.ok == success
      ensures job.Single? ==> job.text == text
      ensures !old(c.Idle()) ==> !c.Idle() && AllRefused(job.entries)
      ensures Blocks(job) ==> !c.Idle() && RollbackRefused(job)
      ensures handle.counter == if unthreaded then old(handle.counter) else (old(handle.counter) - 1) % 0x1_0000_0000
    {
      hide IsRun, RollbackBlocked;
      ghost var es;
      match kind {
        case PreparedQuery =>
          success, es := ExecutePrepared(c, p);
          job := Single(text, es);
        case TransactionQuery =>
          ghost var at, bad;
          success, es, at, bad := ExecuteTransaction(c);
          job := Transacted(queries, es, success);
        case PlainQuery =>
          success, es := ExecuteText(c);
          job := Single(text, es);
      }
    }
  }

  // ---------------------------------------------------------------------------
  // Jobs

  /** What one query leaves in the log: a transaction's run, or at most one statement. */
  datatype Job =
    | Transacted(queries: seq<string>, entries: seq<Entry>, ok: bool)
    | Single(text: string, entries: seq<Entry>)

  ghost predicate IsJob(j: Job) {
    match j
    case Transacted(queries, entries, ok) => IsRun(queries, entries, ok)
    case Single(text, entries) =>
      |entries| <= 1 && forall i :: 0 <= i < |entries| ==> entries[i].command == Statement(text)
  }

  predicate RollbackRefused(j: Job) {
    j.entries != [] && j.entries[|j.entries| - 1].reply == Refused(OUT_OF_SYNC)
  }

  /** The job is a transaction that stopped at a result set it could not store, with more to come. */
  predicate Blocks(j: Job) {
    j.Transacted? && RollbackBlocked(j.entries)
  }

  /** A START that succeeded, the statements of `body`, and an ending make a run. */
  lemma RunIs(qs: seq<string>, start: seq<Entry>, body: seq<Entry>, ending: seq<Entry>, ok: bool)
    requires qs != [] && |start| == 1 && start[0].command == Start && start[0].reply.Done?
    requires IsBody(qs, body + ending, |body|, ok)
    ensures IsRun(qs, start + body + ending, ok)
    ensures var es := start + body + ending; |es| > 1 && (ok ==> es[1..|es| - 1] == body)
  {
    var es := start + body + ending;
    assert es[1..] == body + ending;
  }

  lemma Assembled(qs: seq<string>, start: seq<Entry>, body: seq<Entry>, ending: seq<Entry>, ok: bool)
    requires qs != [] && |start| == 1 && start[0].command == Start && start[0].reply.Done?
    requires IsBody(qs, body + ending, |body|, ok) && |body + ending| > 1
    ensures var es, rest := start + body + ending, body + ending;
            && IsRun(qs, es, ok) && start <= es && es[1..] == rest && |es| > 1 && (ok ==> es[1..|es| - 1] == body)
            && FailureOf(es) == FailureOf(rest) && FailedCommand(es) == FailedCommand(rest)
            && RollbackBlocked(es) == RollbackBlocked(rest) && es[|es| - 1] == rest[|rest| - 1]
  {
    hide IsRun, IsBody, FailureOf, FailedCommand, RollbackBlocked;
    RunIs(qs, start, body, ending, ok);
    StartFirst(start, body, ending);
    SameFailure(start, body + ending);
  }

  /** Runs without statements. */
  lemma EmptyRuns(qs: seq<string>)
    ensures qs == [] ==> IsRun(qs, [], false)
    ensures FailureOf([]) == NO_QUERIES && FailedCommand([]) == Start && !RollbackBlocked([])
  {
  }

  lemma RefusedRuns(qs: seq<string>, e: Entry)
    requires qs != [] && e.command == Start && e.reply.Refused?
    ensures IsRun(qs, [e], false)
    ensures FailureOf([e]) == e.reply.fault && FailedCommand([e]) == Start && !RollbackBlocked([e])
  {
  }

  lemma StartFirst(start: seq<Entry>, body: seq<Entry>, ending: seq<Entry>)
    requires |start| == 1
    ensures var es := start + body + ending; es == start + (body + ending) && es[1..] == body + ending
  {
  }

  lemma SameFailure(start: seq<Entry>, rest: seq<Entry>)
    requires |start| == 1 && |rest| > 1
    ensures FailureOf(start + rest) == FailureOf(rest) && FailedCommand(start + rest) == FailedCommand(rest)
    ensures RollbackBlocked(start + rest) == RollbackBlocked(rest)
    ensures (start + rest)[|start + rest| - 1] == rest[|rest| - 1]
  {
  }

  const NO_QUERIES := Fault(1064, "transaction has no queries")

  /** The command a failed run reports. */
  function FailedCommand(es: seq<Entry>): Command {
    if |es| <= 1 then Start else es[|es| - 2].command
  }

  /** The error a failed run reports. */
  function FailureOf(es: seq<Entry>): Fault {
    if es == [] then NO_QUERIES
    else
      FailureOfEntry(es[if |es| == 1 then 0 else |es| - 2])
  }

  /** What the connector reports after a command that failed, or whose result sets did. */
  function FailureOfEntry(e: Entry): Fault {
    if e.reply.Refused? then e.reply.fault
    else
      var bad := FirstBad(e.reply.sets);
      if bad == [] then NO_QUERIES else bad[0].fault
  }

  /** The result set was stored, or had nothing to store, and no error came after it. */
  predicate Passed(r: Reply, i: nat)
    requires r.Done? && i < |r.sets|
  {
    (r.sets[i].stored || r.sets[i].columns == 0) && r.sets[i].next <= 0
  }

  predicate AllPassed(r: Reply) {
    r.Done? && forall i :: 0 <= i < |r.sets| ==> Passed(r, i)
  }

  /** The command `at` is the first that fails: it is refused, or it is a statement, and its result set `bad` is the
      first that does not pass. */
  predicate FailsFirst(es: seq<Entry>, at: nat, bad: nat) {
    && at < |es| && (at > 0 ==> es[0].reply.Done?) && (forall j :: 0 < j < at ==> AllPassed(es[j].reply))
    && (es[at].reply.Done? ==>
          && es[at].command.Statement?
          && bad < |es[at].reply.sets| && !Passed(es[at].reply, bad)
          && forall i :: 0 <= i < bad ==> Passed(es[at].reply, i))
  }

  lemma PassedIsClean(r: Reply)
    ensures AllPassed(r) <==> Clean(r)
  {
    if r.Done? {
      assert forall i :: 0 <= i < |r.sets| ==> Passed(r, i) == GoodSet(r.sets[i]);
    }
  }

  /** The first result set that does not pass. */
  lemma {:induction false} FirstFailing(r: Reply) returns (bad: nat)
    requires r.Done? && !AllPassed(r)
    ensures bad < |r.sets| && !Passed(r, bad) && forall i :: 0 <= i < bad ==> Passed(r, i)
    ensures FirstBad(r.sets) == r.sets[bad..]
  {
    bad := 0;
    while Passed(r, bad)
      invariant bad < |r.sets| && forall i :: 0 <= i < bad ==> Passed(r, i)
      decreases |r.sets| - bad
    {
      bad := bad + 1;
    }
    assert forall i :: 0 <= i <= bad ==> Passed(r, i) == GoodSet(r.sets[i]);
    FirstBadAt(r.sets, bad);
  }

  /** Where a run fails, and what is then reported. */
  lemma FailurePoint(qs: seq<string>, es: seq<Entry>) returns (at: nat, bad: nat)
    requires qs != [] && IsRun(qs, es, false)
    ensures FailsFirst(es, at, bad) && at <= |qs| + 1
    ensures CommandText(FailedCommand(es)) ==
            if at == 0 then "START TRANSACTION" else if at <= |qs| then qs[at - 1] else "COMMIT"
    ensures FailureOf(es) == if es[at].reply.Refused? then es[at].reply.fault else es[at].reply.sets[bad].fault
    ensures es[0].command == Start && (es[0].reply.Refused? ==> |es| == 1)
    ensures (es[0].reply.Done? ==> at == |es| - 2 && es[|es| - 1].command == Rollback)
  {
    hide AllPassed, Passed, FailureOf, FirstBad, GoodSet, Clean;
    at, bad := 0, 0;
    if es[0].reply.Done? {
      var rest := es[1..];
      var k: nat :| IsBody(qs, rest, k, false);
      at := if |rest| == k + 1 then k else k + 1;
      assert forall i :: 0 <= i < |rest| ==> rest[i] == es[i + 1];
      StatementsPass(qs, rest, k, at);
      if es[at].reply.Done? {
        PassedIsClean(es[at].reply);
        bad := FirstFailing(es[at].reply);
      }
    }
    FailureAt(es, at, bad);
  }

  lemma FailureAt(es: seq<Entry>, at: nat, bad: nat)
    requires es != [] && at == if |es| == 1 then 0 else |es| - 2
    requires es[at].reply.Done? ==> bad < |es[at].reply.sets| && FirstBad(es[at].reply.sets) == es[at].reply.sets[bad..]
    ensures FailureOf(es) == if es[at].reply.Refused? then es[at].reply.fault else es[at].reply.sets[bad].fault
  {
  }

  /** A failed run's ROLLBACK is blocked exactly if the run fails at a result set that could not be stored, with more to
      come. */
  lemma BlockedExactly(qs: seq<string>, es: seq<Entry>, at: nat, bad: nat)
    requires qs != [] && IsRun(qs, es, false) && FailsFirst(es, at, bad)
    ensures RollbackBlocked(es) <==>
              es[at].reply.Done? && !es[at].reply.sets[bad].stored && es[at].reply.sets[bad].columns > 0
              && bad + 1 < |es[at].reply.sets|
  {
    hide IsRun, AllPassed, FailureOf, FailedCommand, RollbackBlocked;
    var at', bad' := FailurePoint(qs, es);
    if es[0].reply.Done? {
      FailsOnce(es, at, bad, at', bad');
      BlockedAt(es, at, bad);
    } else {
      RefusedStart(es);
    }
  }

  lemma BlockedAt(es: seq<Entry>, at: nat, bad: nat)
    requires |es| > 1 && at == |es| - 2 && FailsFirst(es, at, bad) && es[|es| - 1].command == Rollback
    ensures RollbackBlocked(es) <==>
              es[at].reply.Done? && !es[at].reply.sets[bad].stored && es[at].reply.sets[bad].columns > 0
              && bad + 1 < |es[at].reply.sets|
  {
    hide AllPassed, FirstBad;
    if es[at].reply.Done? {
      var r := es[at].reply;
      assert forall i :: 0 <= i <= bad ==> Passed(r, i) == GoodSet(r.sets[i]);
      FirstBadAt(r.sets, bad);
    }
  }

  lemma RefusedStart(es: seq<Entry>)
    requires |es| == 1
    ensures !RollbackBlocked(es)
  {
  }

  lemma FailsOnce(es: seq<Entry>, at: nat, bad: nat, at': nat, bad': nat)
    requires FailsFirst(es, at, bad) && FailsFirst(es, at', bad') && es[0].command == Start && es[0].reply.Done?
    ensures at == at'
  {
    if 0 < at < at' || 0 < at' < at {
      assert false;
    }
  }

  lemma StatementsPass(qs: seq<string>, rest: seq<Entry>, k: nat, at: nat)
    requires IsBody(qs, rest, k, false) && at == if |rest| == k + 1 then k else k + 1
    ensures forall j :: 0 <= j < at - 1 ==> AllPassed(rest[j].reply)
    ensures forall j :: 0 <= j < k ==> rest[j].command == Statement(qs[j])
  {
    var body := rest[..k];
    forall j | 0 <= j < k
      ensures rest[j].command == Statement(qs[j]) && (j < at - 1 ==> AllPassed(rest[j].reply))
    {
      assert body[j] == rest[j];
      PassedIsClean(rest[j].reply);
    }
  }

  /** A result set that could not be stored stood before further sets when the run rolled back. */
  predicate RollbackBlocked(es: seq<Entry>): (b: bool)
    ensures b ==> |es| > 1
  {
    |es| > 1 && es[|es| - 1].command == Rollback && es[|es| - 2].reply.Done?
    && |LeftOver(es[|es| - 2].reply.sets)| > 1
  }

  // ---------------------------------------------------------------------------
  // What a transaction does to the database

  /** The statements whose effect is durable, and those of the open transaction, if there is one. */
  datatype Database = Database(committed: seq<string>, open: Option<seq<string>>)

  function Opened(db: Database): seq<string> {
    if db.open.Some? then db.open.value else []
  }

  /** A refused command has no effect. START commits a transaction still open. */
  function Apply(db: Database, e: Entry): Database {
    if e.reply.Refused? then db
    else
      match e.command
      case Start => Database(db.committed + Opened(db), Some([]))
      case Statement(t) =>
        if db.open.Some? then db.(open := Some(db.open.value + [t])) else db.(committed := db.committed + [t])
      case Commit => Database(db.committed + Opened(db), None)
      case Rollback => db.(open := None)
  }

  function Play(db: Database, es: seq<Entry>): Database {
    if es == [] then db else Apply(Play(db, es[..|es| - 1]), es[|es| - 1])
  }

  /** The texts of the statements in es that the server carried out. */
  function Performed(es: seq<Entry>): seq<string> {
    if es == [] then []
    else
      var last := es[|es| - 1];
      Performed(es[..|es| - 1]) + (if last.command.Statement? && last.reply.Done? then [last.command.text] else [])
  }

  lemma {:induction false} PlayAppend(db: Database, a: seq<Entry>, b: seq<Entry>)
    ensures Play(db, a + b) == Play(Play(db, a), b)
    decreases |b|
  {
    if b == [] {
      assert a + b == a;
    } else {
      assert (a + b)[..|a + b| - 1] == a + b[..|b| - 1];
      PlayAppend(db, a, b[..|b| - 1]);
    }
  }

  lemma {:induction false} PlayStatements(db: Database, es: seq<Entry>)
    requires db.open.Some? && forall i :: 0 <= i < |es| ==> es[i].command.Statement?
    ensures Play(db, es) == db.(open := Some(db.open.value + Performed(es)))
  {
    if es == [] {
      assert db.open.value + [] == db.open.value;
    } else {
      var before := es[..|es| - 1];
      PlayStatements(db, before);
      var xs := db.open.value + Performed(before);
      assert Performed(before) + [] == Performed(before);
      assert xs + [es[|es| - 1].command.text] == db.open.value + (Performed(before) + [es[|es| - 1].command.text]);
    }
  }

  lemma {:induction false} PerformedClean(qs: seq<string>, es: seq<Entry>)
    requires IsPrefix(qs, es) && AllClean(es)
    ensures Performed(es) == qs[..|es|]
  {
    if es != [] {
      var n := |es| - 1;
      PerformedClean(qs, es[..n]);
      assert qs[..|es|] == qs[..n] + [qs[n]];
    }
  }

  /** The run ended its transaction: it committed, never began, or its ROLLBACK was accepted. */
  predicate Closed(es: seq<Entry>) {
    |es| <= 1 || es[|es| - 1].reply.Done?
  }

  lemma PlayTwo(db: Database, a: Entry, b: Entry)
    ensures Play(db, [a]) == Apply(db, a) && Play(db, [a, b]) == Apply(Apply(db, a), b)
  {
    assert [a][..0] == [] && [a, b][..1] == [a];
  }

  lemma PlayStart(db: Database, e: Entry)
    requires e.command == Start && e.reply.Done?
    ensures Play(db, [e]) == Database(db.committed + Opened(db), Some([]))
  {
    PlayTwo(db, e, e);
  }

  lemma BodyEffect(qs: seq<string>, es: seq<Entry>, k: nat, ok: bool, db: Database)
    requires IsBody(qs, es, k, ok) && db.open == Some([])
    ensures Play(db, es) ==
            if ok then Database(db.committed + qs, None)
            else if es[|es| - 1].reply.Done? then Database(db.committed, None)
            else Database(db.committed, Some(Performed(es[..k])))
    ensures ok ==> es[|es| - 1].reply.Done?
  {
    hide Play, Performed, AllClean, Clean;
    var body, ending := es[..k], es[k..];
    assert es == body + ending;
    PlayAppend(db, body, ending);
    PlayStatements(db, body);
    assert [] + Performed(body) == Performed(body);
    if ok {
      PerformedClean(qs, body);
      assert qs[..|qs|] == qs;
      assert ending == [es[k]];
      PlayTwo(Play(db, body), es[k], es[k]);
    } else if |es| == k + 1 {
      assert ending == [es[k]];
      PlayTwo(Play(db, body), es[k], es[k]);
    } else {
      assert ending == [es[k], es[k + 1]];
      PlayTwo(Play(db, body), es[k], es[k + 1]);
    }
  }

  /** One transaction on a connection with no open transaction makes all its queries durable or none,
      and leaves a transaction open only if its ROLLBACK was refused. */
  lemma AllOrNothing(qs: seq<string>, es: seq<Entry>, ok: bool, db: Database)
    requires IsRun(qs, es, ok) && db.open.None?
    ensures Play(db, es).committed == db.committed + (if ok then qs else [])
    ensures Play(db, es).open.None? <==> Closed(es)
    ensures !Closed(es) ==> Play(db, es).open == Some(Performed(es))
  {
    RunEffect(qs, es, ok, db);
    assert db.committed + [] == db.committed;
  }

  lemma RunEffect(qs: seq<string>, es: seq<Entry>, ok: bool, db: Database)
    requires IsRun(qs, es, ok)
    ensures var start := es != [] && es[0].reply.Done?;
            var before := if start then db.committed + Opened(db) else db.committed;
            && Play(db, es).committed == before + (if ok then qs else [])
            && (start ==> (Play(db, es).open.None? <==> Closed(es)))
            && (!start ==> Play(db, es) == db && Closed(es))
            && (!Closed(es) ==> Play(db, es).open == Some(Performed(es)))
  {
    assert db.committed + [] == db.committed;
    if es != [] {
      var rest := es[1..];
      assert es == [es[0]] + rest;
      PlayAppend(db, [es[0]], rest);
      if es[0].reply.Refused? {
        assert rest == [];
        PlayTwo(db, es[0], es[0]);
      } else {
        PlayStart(db, es[0]);
        var k: nat :| IsBody(qs, rest, k, ok);
        var db1 := Database(db.committed + Opened(db), Some([]));
        BodyEffect(qs, rest, k, ok, db1);
        assert db1.committed + [] == db1.committed;
        PerformedRun(es[0], rest, k, qs, ok);
      }
    }
  }

  lemma PerformedRun(start: Entry, rest: seq<Entry>, k: nat, qs: seq<string>, ok: bool)
    requires start.command == Start && IsBody(qs, rest, k, ok)
    ensures Performed([start] + rest) == Performed(rest[..k])
  {
    PerformedAppend([start], rest);
    PerformedAppend(rest[..k], rest[k..]);
    assert rest == rest[..k] + rest[k..];
    PerformedNothing([start]);
    PerformedNothing(rest[k..]);
    assert [] + Performed(rest) == Performed(rest);
    assert Performed(rest[..k]) + [] == Performed(rest[..k]);
  }

  lemma {:induction false} PerformedAppend(a: seq<Entry>, b: seq<Entry>)
    ensures Performed(a + b) == Performed(a) + Performed(b)
    decreases |b|
  {
    if b == [] {
      assert a + b == a;
    } else {
      assert (a + b)[..|a + b| - 1] == a + b[..|b| - 1];
      PerformedAppend(a, b[..|b| - 1]);
    }
  }

  lemma {:induction false} PerformedNothing(es: seq<Entry>)
    requires forall i :: 0 <= i < |es| ==> !es[i].command.Statement?
    ensures Performed(es) == []
  {
    if es != [] {
      PerformedNothing(es[..|es| - 1]);
    }
  }
}
