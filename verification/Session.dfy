/** The queries a worker executes one after another on its connection, and what they do to the database. A query leaves
    one job in the log; the promise is that at any time the durable work is that of the transactions that succeeded
    and of the single statements that were carried out. */
module Session {
  import opened Wrappers
  import opened Transaction

  function Logs(jobs: seq<Job>): seq<Entry> {
    if jobs == [] then [] else jobs[0].entries + Logs(jobs[1..])
  }

  ghost predicate AreJobs(jobs: seq<Job>) {
    forall i :: 0 <= i < |jobs| ==> IsJob(jobs[i])
  }

  lemma {:induction false} LogsSnoc(jobs: seq<Job>, j: Job)
    ensures Logs(jobs + [j]) == Logs(jobs) + j.entries
  {
    if jobs == [] {
      assert [j][1..] == [] && (jobs + [j]) == [j];
      assert j.entries + [] == j.entries;
    } else {
      assert (jobs + [j])[1..] == jobs[1..] + [j];
      LogsSnoc(jobs[1..], j);
    }
  }

  /** The job is what the query leaves. */
  predicate Leaves(q: Query, j: Job) {
    if q.kind == TransactionQuery then j.Transacted? && j.queries == q.queries else j.Single? && j.text == q.text
  }

  /** The ROLLBACK of a job that blocks does not reach the server, and no later command does. */
  ghost predicate Blocked(jobs: seq<Job>) {
    && (forall i :: 0 <= i < |jobs| && Blocks(jobs[i]) ==> RollbackRefused(jobs[i]))
    && (forall i, k :: 0 <= i < k < |jobs| && Blocks(jobs[i]) ==> AllRefused(jobs[k].entries))
  }

  /** The worker's loop, as long as the connection is not lost. Nothing reaches the server out of sync; a transaction
      that stops at a result set it cannot store, with more to come, puts the connection out of sync for good. */
  method Work(c: Connection, qs: seq<Query>, ps: seq<Prepared>) returns (ghost jobs: seq<Job>)
    requires c.Valid() && |ps| == |qs| && forall i :: 0 <= i < |qs| ==> qs[i].handle.counter < TWO32
    modifies c`log, c`pending, c`fault, c`served, set q | q in qs, set q | q in qs :: q.handle
    ensures c.Valid() && c.log == old(c.log) + Logs(jobs)
    ensures |jobs| == |qs| && AreJobs(jobs) && forall i :: 0 <= i < |qs| ==> Leaves(qs[i], jobs[i])
    ensures Blocked(jobs)
    ensures (!old(c.Idle()) ==> AllRefused(Logs(jobs))) && (!old(c.Idle()) ==> !c.Idle())
    ensures (exists i :: 0 <= i < |jobs| && Blocks(jobs[i])) ==> !c.Idle()
  {
    hide IsJob, Blocks, Logs, AllRefused, Blocked;
    jobs := [];
    NoJobs();
    var i := 0;
    while i < |qs|
      invariant c.Valid() && 0 <= i <= |qs| == |ps| && |jobs| == i && c.log == old(c.log) + Logs(jobs)
      invariant forall k :: 0 <= k < |qs| ==> qs[k].handle.counter < TWO32
      invariant AreJobs(jobs) && forall k :: 0 <= k < i ==> Leaves(qs[k], jobs[k])
      invariant Blocked(jobs)
      invariant !old(c.Idle()) ==> AllRefused(Logs(jobs)) && !c.Idle()
      invariant (exists k :: 0 <= k < |jobs| && Blocks(jobs[k])) ==> !c.Idle()
    {
      ghost var job;
      var success;
      success, job := qs[i].Execute(c, ps[i]);
      OneMore(jobs, job);
      jobs := jobs + [job];
      i := i + 1;
    }
  }

  lemma NoJobs()
    ensures Logs([]) == [] && AllRefused(Logs([])) && Blocked([])
  {
  }

  lemma OneMore(jobs: seq<Job>, j: Job)
    requires Blocked(jobs) && (Blocks(j) ==> RollbackRefused(j))
    requires ((exists i :: 0 <= i < |jobs| && Blocks(jobs[i])) ==> AllRefused(j.entries))
    ensures Blocked(jobs + [j]) && Logs(jobs + [j]) == Logs(jobs) + j.entries
    ensures AllRefused(Logs(jobs)) && AllRefused(j.entries) ==> AllRefused(Logs(jobs + [j]))
  {
    hide Logs, Blocks, AllRefused, RollbackRefused;
    LogsSnoc(jobs, j);
    if AllRefused(Logs(jobs)) && AllRefused(j.entries) {
      RefusedMore(Logs(jobs), j.entries);
    }
    BlockedMore(jobs, j);
  }

  lemma BlockedMore(jobs: seq<Job>, j: Job)
    requires Blocked(jobs) && (Blocks(j) ==> RollbackRefused(j))
    requires ((exists i :: 0 <= i < |jobs| && Blocks(jobs[i])) ==> AllRefused(j.entries))
    ensures Blocked(jobs + [j])
  {
    hide Blocks, AllRefused, RollbackRefused;
    var all := jobs + [j];
    forall i, k | 0 <= i < k < |all| && Blocks(all[i]) ensures AllRefused(all[k].entries) {
      assert all[i] == jobs[i];
    }
  }

  lemma RefusedMore(a: seq<Entry>, b: seq<Entry>)
    requires AllRefused(a) && AllRefused(b)
    ensures AllRefused(a + b)
  {
  }

  // ---------------------------------------------------------------------------
  // The promise

  /** What should be durable of a job. */
  function Durable(j: Job): seq<string> {
    match j
    case Transacted(queries, _, ok) => if ok then queries else []
    case Single(_, entries) => Performed(entries)
  }

  function DurableAll(jobs: seq<Job>): seq<string> {
    if jobs == [] then [] else Durable(jobs[0]) + DurableAll(jobs[1..])
  }

  /** After each job, exactly what should be durable is. */
  ghost predicate PromiseKept(db: Database, jobs: seq<Job>) {
    forall n :: 0 <= n <= |jobs| ==> Play(db, Logs(jobs[..n])).committed == db.committed + DurableAll(jobs[..n])
  }

  /** The server accepted none of the job's commands. */
  predicate Silent(j: Job) {
    forall i :: 0 <= i < |j.entries| ==> j.entries[i].reply.Refused?
  }

  /** The work of a transaction that the job leaves open, because its ROLLBACK was refused. */
  function LeftOpen(j: Job): Option<seq<string>> {
    if j.Transacted? && !Closed(j.entries) then Some(Performed(j.entries)) else None
  }

  /** What a job does to the database. */
  lemma JobEffect(j: Job, db: Database)
    requires IsJob(j)
    ensures Silent(j) ==> Play(db, j.entries) == db && Durable(j) == [] && LeftOpen(j) == None
    ensures !Silent(j) && j.Transacted? ==>
              Play(db, j.entries) == Database(db.committed + Opened(db) + Durable(j), LeftOpen(j))
    ensures !Silent(j) && j.Single? ==>
              Durable(j) == [j.text]
              && Play(db, j.entries) == if db.open.None? then Database(db.committed + [j.text], None)
                                        else db.(open := Some(db.open.value + [j.text]))
  {
    match j {
      case Transacted(queries, entries, ok) =>
        RunEffect(queries, entries, ok, db);
        RunSilent(queries, entries, ok);
        assert db.committed + [] == db.committed;
      case Single(text, entries) => SingleEffect(text, entries, db);
    }
  }

  lemma RunSilent(qs: seq<string>, es: seq<Entry>, ok: bool)
    requires IsRun(qs, es, ok)
    ensures (forall i :: 0 <= i < |es| ==> es[i].reply.Refused?) <==> es == [] || es[0].reply.Refused?
    ensures es == [] || es[0].reply.Refused? ==> Closed(es) && !ok
  {
  }

  lemma SingleEffect(text: string, es: seq<Entry>, db: Database)
    requires |es| <= 1 && forall i :: 0 <= i < |es| ==> es[i].command == Statement(text)
    ensures es == [] || es[0].reply.Refused? ==> Play(db, es) == db && Performed(es) == []
    ensures es != [] && es[0].reply.Done? ==>
              Performed(es) == [text]
              && Play(db, es) == if db.open.None? then Database(db.committed + [text], None)
                                 else db.(open := Some(db.open.value + [text]))
  {
    if es != [] {
      assert es == [es[0]] && es[..0] == [];
      PlayTwo(db, es[0], es[0]);
    }
  }

  // ---------------------------------------------------------------------------
  // When the promise is kept

  /** The condition, on the replies alone: `left` is the work of a transaction that is open. The first job after it that
      the server accepts anything of commits that work, if the job is a transaction, and disappears in it, if it is a
      single statement; so there must be no such work, and no such statement. */
  predicate NothingSlips(jobs: seq<Job>, left: Option<seq<string>>) {
    jobs == []
    || if Silent(jobs[0]) then NothingSlips(jobs[1..], left)
       else (left == None || (left == Some([]) && jobs[0].Transacted?)) && NothingSlips(jobs[1..], LeftOpen(jobs[0]))
  }

  lemma {:induction false} LogsAppend(a: seq<Job>, b: seq<Job>)
    ensures Logs(a + b) == Logs(a) + Logs(b) && DurableAll(a + b) == DurableAll(a) + DurableAll(b)
  {
    if a == [] {
      assert a + b == b;
    } else {
      assert (a + b)[1..] == a[1..] + b;
      LogsAppend(a[1..], b);
    }
  }

  /** The first n + 1 jobs are the first one and n of the others. */
  lemma FirstJob(db: Database, jobs: seq<Job>, n: nat)
    requires n < |jobs|
    ensures Play(db, Logs(jobs[..n + 1])) == Play(Play(db, jobs[0].entries), Logs(jobs[1..][..n]))
    ensures DurableAll(jobs[..n + 1]) == Durable(jobs[0]) + DurableAll(jobs[1..][..n])
  {
    var one := [jobs[0]];
    assert jobs[..n + 1] == one + jobs[1..][..n];
    LogsAppend(one, jobs[1..][..n]);
    assert one[1..] == [] && jobs[0].entries + [] == jobs[0].entries && Durable(jobs[0]) + [] == Durable(jobs[0]);
    hide Play, Logs, DurableAll;
    assert Logs(one) == jobs[0].entries && DurableAll(one) == Durable(jobs[0]) by {
      OneJob(jobs[0]);
    }
    PlayAppend(db, jobs[0].entries, Logs(jobs[1..][..n]));
  }

  lemma OneJob(j: Job)
    ensures Logs([j]) == j.entries && DurableAll([j]) == Durable(j)
  {
    assert [j][1..] == [];
    assert j.entries + [] == j.entries && Durable(j) + [] == Durable(j);
  }

  lemma NothingYet(db: Database, jobs: seq<Job>)
    ensures Play(db, Logs(jobs[..0])).committed == db.committed + DurableAll(jobs[..0])
  {
    assert jobs[..0] == [] && db.committed + [] == db.committed;
  }

  lemma PromiseFirst(db: Database, jobs: seq<Job>)
    requires jobs != []
    ensures PromiseKept(db, jobs) <==>
              var db1 := Play(db, jobs[0].entries);
              db1.committed == db.committed + Durable(jobs[0]) && PromiseKept(db1, jobs[1..])
  {
    hide Play, Logs, DurableAll, Durable;
    var db1 := Play(db, jobs[0].entries);
    NothingYet(db, jobs);
    NothingYet(db1, jobs[1..]);
    forall n | 0 <= n < |jobs|
      ensures db1.committed == db.committed + Durable(jobs[0]) ==>
                (Play(db, Logs(jobs[..n + 1])).committed == db.committed + DurableAll(jobs[..n + 1])
                 <==> Play(db1, Logs(jobs[1..][..n])).committed == db1.committed + DurableAll(jobs[1..][..n]))
    {
      FirstJob(db, jobs, n);
      assert db.committed + (Durable(jobs[0]) + DurableAll(jobs[1..][..n]))
          == db.committed + Durable(jobs[0]) + DurableAll(jobs[1..][..n]);
    }
    if PromiseKept(db, jobs) {
      FirstJob(db, jobs, 0);
      assert DurableAll(jobs[1..][..0]) == [] && Durable(jobs[0]) + [] == Durable(jobs[0]) by {
        NoneDurable(jobs[1..]);
      }
      assert Play(db, Logs(jobs[..0 + 1])).committed == db.committed + DurableAll(jobs[..0 + 1]);
      forall n | 0 <= n <= |jobs[1..]| ensures Play(db1, Logs(jobs[1..][..n])).committed
                                                == db1.committed + DurableAll(jobs[1..][..n]) {
        assert Play(db, Logs(jobs[..n + 1])).committed == db.committed + DurableAll(jobs[..n + 1]);
      }
    }
    if db1.committed == db.committed + Durable(jobs[0]) && PromiseKept(db1, jobs[1..]) {
      forall n | 0 <= n <= |jobs| ensures Play(db, Logs(jobs[..n])).committed == db.committed + DurableAll(jobs[..n]) {
        if n > 0 {
          assert Play(db1, Logs(jobs[1..][..n - 1])).committed == db1.committed + DurableAll(jobs[1..][..n - 1]);
        }
      }
    }
  }

  lemma NoneDurable(jobs: seq<Job>)
    ensures DurableAll(jobs[..0]) == []
  {
  }

  /** Over any session, from any state of the connection's transaction: the promise is kept at all times exactly if
      nothing slips. */
  lemma {:induction false} PromiseExactly(jobs: seq<Job>, db: Database)
    requires AreJobs(jobs)
    ensures PromiseKept(db, jobs) <==> NothingSlips(jobs, db.open)
    decreases |jobs|
  {
    if jobs == [] {
      NothingYet(db, jobs);
    } else {
      var db1 := Play(db, jobs[0].entries);
      PromiseFirst(db, jobs);
      JobEffect(jobs[0], db);
      hide Play, PromiseKept, LeftOpen, Silent, IsJob;
      assert AreJobs(jobs[1..]);
      PromiseExactly(jobs[1..], db1);
      LongerNot(db.committed, Opened(db), Durable(jobs[0]));
      assert db.committed + [] == db.committed;
    }
  }

  lemma LongerNot(a: seq<string>, b: seq<string>, c: seq<string>)
    ensures a + b + c == a + c <==> b == []
    ensures c != [] ==> a != a + c
  {
    if a + b + c == a + c {
      assert |a + b + c| == |a + c|;
    }
    assert |a + c| == |a| + |c|;
    if b == [] {
      assert a + b == a;
    }
  }

  // ---------------------------------------------------------------------------
  // A ROLLBACK refused by the connector, and one refused by the server

  lemma {:induction false} RefusedPlay(db: Database, es: seq<Entry>)
    requires AllRefused(es)
    ensures Play(db, es) == db
  {
    if es != [] {
      RefusedPlay(db, es[..|es| - 1]);
    }
  }

  lemma {:induction false} RefusedJobs(jobs: seq<Job>)
    requires forall k :: 0 <= k < |jobs| ==> AllRefused(jobs[k].entries)
    ensures AllRefused(Logs(jobs))
  {
    if jobs != [] {
      RefusedJobs(jobs[1..]);
    }
  }

  /** A blocked transaction stays open for good: nothing of it becomes durable, and neither does anything after it. */
  lemma BlockedForGood(jobs: seq<Job>, i: nat, db: Database)
    requires AreJobs(jobs) && Blocked(jobs) && i < |jobs| && Blocks(jobs[i])
    requires Play(db, Logs(jobs[..i])).open.None?
    ensures var before := Play(db, Logs(jobs[..i]));
            Play(db, Logs(jobs)) == Database(before.committed, Some(Performed(jobs[i].entries)))
  {
    hide Play, Logs, IsJob, Silent, Blocks, AllRefused, Performed, LeftOpen, RollbackRefused;
    var before, rest := Play(db, Logs(jobs[..i])), jobs[i + 1..];
    forall k | 0 <= k < |rest| ensures AllRefused(rest[k].entries) {
      assert rest[k] == jobs[i + 1 + k];
    }
    RefusedJobs(rest);
    JobEffect(jobs[i], before);
    assert jobs == jobs[..i] + ([jobs[i]] + rest);
    LogsAppend(jobs[..i], [jobs[i]] + rest);
    LogsAppend([jobs[i]], rest);
    OneJob(jobs[i]);
    PlayAppend(db, Logs(jobs[..i]), jobs[i].entries + Logs(rest));
    PlayAppend(before, jobs[i].entries, Logs(rest));
    RefusedPlay(Play(before, jobs[i].entries), Logs(rest));
    assert before.committed + [] == before.committed;
    BlockedFails(jobs[i]);
  }

  lemma BlockedFails(j: Job)
    requires IsJob(j) && Blocks(j) && RollbackRefused(j)
    ensures j.Transacted? && !j.ok && !Silent(j) && LeftOpen(j) == Some(Performed(j.entries))
  {
    if j.queries != [] && j.entries[0].reply.Done? {
      var k: nat :| IsBody(j.queries, j.entries[1..], k, j.ok);
      assert j.entries[|j.entries| - 1] == j.entries[1..][|j.entries| - 2];
    }
  }

  /** If only the connector refuses a ROLLBACK, out of sync, then nothing slips. */
  lemma {:induction false} OnlyBlockedSafe(jobs: seq<Job>)
    requires AreJobs(jobs) && Blocked(jobs)
    requires forall i :: 0 <= i < |jobs| && LeftOpen(jobs[i]).Some? ==> Blocks(jobs[i])
    ensures NothingSlips(jobs, None)
  {
    if jobs != [] {
      var rest := jobs[1..];
      assert Blocked(rest) by {
        forall i, k | 0 <= i < k < |rest| && Blocks(rest[i]) ensures AllRefused(rest[k].entries) {
          assert rest[i] == jobs[i + 1] && rest[k] == jobs[k + 1];
        }
      }
      if Blocks(jobs[0]) {
        forall k | 0 <= k < |rest| ensures AllRefused(rest[k].entries) {
          assert rest[k] == jobs[k + 1];
        }
        SilentRest(rest, LeftOpen(jobs[0]));
        SilentRest(rest, None);
      } else {
        OnlyBlockedSafe(rest);
      }
    }
  }

  lemma {:induction false} SilentRest(jobs: seq<Job>, left: Option<seq<string>>)
    requires forall k :: 0 <= k < |jobs| ==> AllRefused(jobs[k].entries)
    ensures NothingSlips(jobs, left)
  {
    if jobs != [] {
      SilentRest(jobs[1..], left);
    }
  }

  /** If every transaction that began was ended, the promise is kept, and no transaction is open at the end. */
  lemma {:induction false} AllEnded(jobs: seq<Job>, db: Database)
    requires AreJobs(jobs) && db.open.None? && forall i :: 0 <= i < |jobs| ==> LeftOpen(jobs[i]).None?
    ensures Play(db, Logs(jobs)) == Database(db.committed + DurableAll(jobs), None)
    decreases |jobs|
  {
    hide Play, LeftOpen, Silent, IsJob, Durable;
    if jobs == [] {
      assert db.committed + [] == db.committed;
      PlayNothing(db);
    } else {
      var db1 := Play(db, jobs[0].entries);
      EndedEffect(jobs[0], db);
      AllEnded(jobs[1..], db1);
      PlayAppend(db, jobs[0].entries, Logs(jobs[1..]));
      assert db.committed + Durable(jobs[0]) + DurableAll(jobs[1..])
          == db.committed + (Durable(jobs[0]) + DurableAll(jobs[1..]));
    }
  }

  lemma PlayNothing(db: Database)
    ensures Play(db, []) == db
  {
  }

  lemma EndedEffect(j: Job, db: Database)
    requires IsJob(j) && db.open.None? && LeftOpen(j).None?
    ensures Play(db, j.entries) == Database(db.committed + Durable(j), None)
  {
    JobEffect(j, db);
    hide Play, LeftOpen, Silent, IsJob, Durable;
    assert db.committed + [] == db.committed;
  }

  // ---------------------------------------------------------------------------
  // Servers that look at the last command only

  ghost predicate Forgetful(server: seq<Command> -> Reply) {
    forall cs :: cs != [] ==> server(cs) == server([cs[|cs| - 1]])
  }

  /** The replies are the server's. */
  ghost predicate From(server: seq<Command> -> Reply, es: seq<Entry>) {
    forall i :: 0 <= i < |es| ==> es[i].reply == server([es[i].command])
  }

  /** The replies are the server's, or the connector's. */
  ghost predicate FromOrNot(server: seq<Command> -> Reply, es: seq<Entry>) {
    forall i :: 0 <= i < |es| ==> es[i].reply == server([es[i].command]) || es[i].reply == Refused(OUT_OF_SYNC)
  }

  lemma ForgetfulReply(server: seq<Command> -> Reply, es: seq<Entry>, i: nat)
    requires i < |es| && Forgetful(server) && Answers(server, es, i)
    ensures es[i].reply == server([es[i].command])
  {
    var cs := Commands(es[..i + 1]);
    assert |cs| == i + 1 && cs[i] == es[i].command;
  }

  lemma ForgetfulReplies(server: seq<Command> -> Reply, es: seq<Entry>, n: nat)
    requires n <= |es| && Forgetful(server) && forall i :: 0 <= i < n ==> Answers(server, es, i)
    requires forall i :: n <= i < |es| ==> es[i].reply == Refused(OUT_OF_SYNC)
    ensures FromOrNot(server, es) && (n == |es| ==> From(server, es))
  {
    hide Forgetful, Answers;
    forall i | 0 <= i < n ensures es[i].reply == server([es[i].command]) {
      ForgetfulReply(server, es, i);
    }
  }

  lemma LaterReplies(server: seq<Command> -> Reply, before: seq<Entry>, es: seq<Entry>)
    ensures FromOrNot(server, before + es) ==> FromOrNot(server, es)
    ensures From(server, before + es) ==> From(server, es)
  {
    assert forall i :: 0 <= i < |es| ==> (before + es)[|before| + i] == es[i];
  }

  lemma ConnectionReplies(c: Connection)
    requires c.Valid() && Forgetful(c.server)
    ensures FromOrNot(c.server, c.log) && (c.Idle() ==> From(c.server, c.log))
  {
    hide Forgetful, Answers, From, FromOrNot, Obeys;
    ForgetfulReplies(c.server, c.log, c.served);
  }

  /** One transaction more, on the connection of such a server. */
  method ForgetfulRun(c: Connection, q: Query) returns (ok: bool, ghost es: seq<Entry>)
    requires c.Valid() && Forgetful(c.server) && q.handle.counter < TWO32
    modifies c`log, c`pending, c`fault, c`served, q, q.handle
    ensures c.Valid() && c.log == old(c.log) + es && IsRun(q.queries, es, ok) && FromOrNot(c.server, es)
    ensures c.Idle() <==> old(c.Idle()) && !RollbackBlocked(es)
    ensures c.Idle() ==> From(c.server, es)
    ensures RollbackBlocked(es) ==> es[|es| - 1].reply == Refused(OUT_OF_SYNC)
    ensures !old(c.Idle()) ==> AllRefused(es) && !ok
    ensures q.handle.counter < TWO32
  {
    hide IsRun, RollbackBlocked, Forgetful, From, FromOrNot;
    ghost var at, bad;
    ok, es, at, bad := q.ExecuteTransaction(c);
    ConnectionReplies(c);
    LaterReplies(c.server, old(c.log), es);
  }

  // ---------------------------------------------------------------------------
  // A server that refuses ROLLBACK

  /** It cannot carry out the statement `b`, and refuses every ROLLBACK. */
  function Stubborn(cs: seq<Command>): Reply {
    if cs != [] && (cs[|cs| - 1] == Statement("b") || cs[|cs| - 1] == Rollback) then Refused(Fault(1, "no"))
    else Done(0, 0, [ResultSet(false, 0, -1, Fault(0, ""))])
  }

  lemma StubbornObeys()
    ensures Forgetful(Stubborn) && forall cs :: Obeys(cs, Stubborn(cs))
  {
  }

  lemma NeverBlocks(es: seq<Entry>)
    requires FromOrNot(Stubborn, es)
    ensures !RollbackBlocked(es)
  {
  }

  lemma {:induction false} FirstRun(qs: seq<string>, es: seq<Entry>, ok: bool, db: Database)
    requires qs == ["a", "b"] && IsRun(qs, es, ok) && From(Stubborn, es) && db == Database([], None)
    ensures Play(db, es) == Database([], Some(["a"])) && !ok
  {
    var rest := es[1..];
    var k: nat :| IsBody(qs, rest, k, ok);
    var body := rest[..k];
    assert forall i :: 0 <= i < |body| ==> body[i] == rest[i] == es[i + 1];
    if k == 2 {
      assert body[1].command == Statement("b") && !Clean(body[1].reply);
    }
    assert k == 2 && |es| == 4;
    PlayFour(es, db);
    assert [] + ["a"] == ["a"];
  }

  lemma {:induction false} SecondRun(qs: seq<string>, es: seq<Entry>, ok: bool, db: Database)
    requires qs == ["c"] && IsRun(qs, es, ok) && From(Stubborn, es) && db == Database([], Some(["a"]))
    ensures Play(db, es) == Database(["a", "c"], None) && ok
  {
    var rest := es[1..];
    var k: nat :| IsBody(qs, rest, k, ok);
    var body := rest[..k];
    assert forall i :: 0 <= i < |body| ==> body[i] == rest[i] == es[i + 1];
    assert k == 1 ==> body[0].command == Statement("c") && Clean(body[0].reply);
    assert k == 1 && |es| == 3;
    PlayThree(es, db);
    assert [] + ["a"] == ["a"] && [] + ["c"] == ["c"] && ["a"] + ["c"] == ["a", "c"];
  }

  lemma PlayThree(es: seq<Entry>, db: Database)
    requires |es| == 3
    ensures Play(db, es) == Apply(Apply(Apply(db, es[0]), es[1]), es[2])
  {
    assert es[..2] == [es[0], es[1]];
    PlayTwo(db, es[0], es[1]);
  }

  lemma PlayFour(es: seq<Entry>, db: Database)
    requires |es| == 4
    ensures Play(db, es) == Apply(Apply(Apply(Apply(db, es[0]), es[1]), es[2]), es[3])
  {
    PlayThree(es[..3], db);
  }

  /** Two transactions on its connection: the first fails, and its statement `a` becomes durable with the second. */
  method PartialWork() returns (c: Connection, ok1: bool, ok2: bool)
    ensures c.server == Stubborn && !ok1 && ok2
    ensures Play(Database([], None), c.log).committed == ["a", "c"]
  {
    hide IsRun, Play, Stubborn, RollbackBlocked, Forgetful, From, FromOrNot;
    StubbornObeys();
    c := new Connection(Stubborn);
    var handle := new Handle(1);
    var first := new Query(["a", "b"], false, handle, "", []);
    var second := new Query(["c"], false, handle, "", []);
    ghost var es1, es2;
    ok1, es1 := ForgetfulRun(c, first);
    NeverBlocks(es1);
    FirstRun(first.queries, es1, ok1, Database([], None));
    ok2, es2 := ForgetfulRun(c, second);
    NeverBlocks(es2);
    SecondRun(second.queries, es2, ok2, Database([], Some(["a"])));
    PlayAppend(Database([], None), es1, es2);
    assert [] + es1 == es1;
  }

  // ---------------------------------------------------------------------------
  // A server with a result set that cannot be stored

  /** It answers every statement with two result sets, of which the first cannot be stored. */
  function Clumsy(cs: seq<Command>): Reply {
    if cs != [] && cs[|cs| - 1].Statement? then
      Done(0, 0, [ResultSet(false, 1, 0, Fault(2, "no memory")), ResultSet(true, 1, -1, Fault(0, ""))])
    else Done(0, 0, [ResultSet(false, 0, -1, Fault(0, ""))])
  }

  lemma ClumsyObeys()
    ensures Forgetful(Clumsy) && forall cs :: Obeys(cs, Clumsy(cs))
  {
  }

  lemma ClumsyLeaves(r: Reply)
    requires r == Clumsy([Statement("a")])
    ensures r.Done? && !Clean(r) && |LeftOver(r.sets)| == 2
  {
    assert !GoodSet(r.sets[0]);
  }

  /** A transaction that starts on its connection in sync is blocked, whatever the connector adds. */
  lemma {:induction false} ClumsyBlocks(qs: seq<string>, es: seq<Entry>, ok: bool, db: Database)
    requires qs == ["a"] && IsRun(qs, es, ok) && FromOrNot(Clumsy, es) && db == Database([], None)
    requires !RollbackBlocked(es) ==> From(Clumsy, es)
    ensures RollbackBlocked(es) && !ok
    ensures es[|es| - 1].reply == Refused(OUT_OF_SYNC) ==> Play(db, es) == Database([], Some(["a"]))
  {
    var r := Clumsy([Statement("a")]);
    ClumsyLeaves(r);
    hide LeftOver, Clean;
    assert es[0].reply.Done?;
    var rest := es[1..];
    var k: nat :| IsBody(qs, rest, k, ok);
    var body := rest[..k];
    assert forall i :: 0 <= i < |body| ==> body[i] == rest[i] == es[i + 1];
    assert k == 1 && body[0].command == Statement("a");
    assert |es| == 3 && es[1].reply == r;
    PlayThree(es, db);
    assert [] + ["a"] == ["a"];
  }

  /** Two transactions on its connection: the first is blocked, nothing of the second reaches the server, and the first
      stays open with its statement `a`. */
  method BlockedWork() returns (c: Connection, ok1: bool, ok2: bool, ghost es1: seq<Entry>, ghost es2: seq<Entry>)
    ensures c.server == Clumsy && c.log == es1 + es2 && !ok1 && !ok2
    ensures IsRun(["a"], es1, ok1) && RollbackBlocked(es1) && !c.Idle()
    ensures IsRun(["c"], es2, ok2) && es2 != [] && AllRefused(es2)
    ensures Play(Database([], None), c.log) == Database([], Some(["a"]))
  {
    hide IsRun, Play, Clumsy, RollbackBlocked, Forgetful, From, FromOrNot;
    ClumsyObeys();
    c := new Connection(Clumsy);
    var handle := new Handle(1);
    var first := new Query(["a"], false, handle, "", []);
    var second := new Query(["c"], false, handle, "", []);
    ok1, es1 := ForgetfulRun(c, first);
    ClumsyBlocks(first.queries, es1, ok1, Database([], None));
    ok2, es2 := ForgetfulRun(c, second);
    RunNotEmpty(second.queries, es2, ok2);
    PlayAppend(Database([], None), es1, es2);
    RefusedPlay(Play(Database([], None), es1), es2);
    assert [] + es1 == es1;
  }

  lemma RunNotEmpty(qs: seq<string>, es: seq<Entry>, ok: bool)
    requires qs != [] && IsRun(qs, es, ok)
    ensures es != []
  {
  }
}
