/**
 The counting transaction semaphore (database/database.cpp:393-438): nested begin/commit/rollback calls are
 flattened into one SQL transaction.

 `T` is the whole content of the database. SQL BEGIN, COMMIT and ROLLBACK are taken to succeed.
 */
module Transactions {
  datatype Sql = SqlBegin | SqlCommit | SqlRollback

  datatype Call<T> = Begin | Commit | Rollback | Write(content: T)

  /** `committed` is what survives a rollback, `working` what queries see; `sql` is the transaction SQL issued. */
  datatype State<T> = State(counter: int, sql: seq<Sql>, committed: T, working: T)

  function BeginCall<T>(s: State<T>): State<T> {
    var t := s.(counter := s.counter + 1);
    if s.counter == 0 then t.(sql := s.sql + [SqlBegin]) else t
  }

  function CommitCall<T>(s: State<T>): State<T> {
    var t := s.(counter := s.counter - 1);
    if s.counter == 1 then t.(sql := s.sql + [SqlCommit], committed := s.working) else t
  }

  function RollbackCall<T>(s: State<T>): State<T> {
    var t := s.(counter := s.counter - 1);
    if s.counter == 1 then t.(sql := s.sql + [SqlRollback], working := s.committed) else t
  }

  /** A statement that leaves `content` behind; outside a transaction it commits by itself. */
  function WriteCall<T>(s: State<T>, content: T): State<T> {
    var t := s.(working := content);
    if s.counter > 0 then t else t.(committed := content)
  }

  function Step<T>(s: State<T>, c: Call<T>): State<T> {
    match c
    case Begin => BeginCall(s)
    case Commit => CommitCall(s)
    case Rollback => RollbackCall(s)
    case Write(content) => WriteCall(s, content)
  }

  function Run<T>(s: State<T>, calls: seq<Call<T>>): State<T>
    decreases |calls|
  {
    if calls == [] then s else Step(Run(s, calls[..|calls| - 1]), calls[|calls| - 1])
  }

  // ---- what the database engine makes of the SQL ----------------------------------------------------

  datatype Engine = Idle | InTransaction | Error

  /** SQLite refuses a BEGIN inside a transaction and a COMMIT or ROLLBACK outside one. */
  function Replay(sql: seq<Sql>): Engine
    decreases |sql|
  {
    if sql == [] then Idle
    else
      match Replay(sql[..|sql| - 1])
      case Error => Error
      case Idle => if sql[|sql| - 1] == SqlBegin then InTransaction else Error
      case InTransaction => if sql[|sql| - 1] == SqlBegin then Error else Idle
  }

  lemma ReplayOne(sql: seq<Sql>, next: Sql)
    ensures Replay(sql + [next]) ==
            match Replay(sql) {
              case Error => Error
              case Idle => if next == SqlBegin then InTransaction else Error
              case InTransaction => if next == SqlBegin then Error else Idle
            }
  {
    assert (sql + [next])[..|sql|] == sql;
  }

  /** A transaction is open exactly when the counter is positive, and none of the SQL is refused. */
  ghost predicate InStep<T>(s: State<T>) {
    && Replay(s.sql) == (if s.counter > 0 then InTransaction else Idle)
    && (s.counter <= 0 ==> s.committed == s.working)
  }

  lemma StepKeepsInStep<T>(s: State<T>, c: Call<T>)
    requires InStep(s)
    ensures InStep(Step(s, c))
  {
    ReplayOne(s.sql, SqlBegin);
    ReplayOne(s.sql, SqlCommit);
    ReplayOne(s.sql, SqlRollback);
  }

  /**
   For every sequence of calls, matched or not: the SQL issued alternates BEGIN and one COMMIT or ROLLBACK, a
   transaction is open exactly when the counter is positive, and otherwise nothing is left uncommitted.
   */
  lemma {:induction false} SqlAlternates<T>(content: T, calls: seq<Call<T>>)
    ensures InStep(Run(State(0, [], content, content), calls))
    decreases |calls|
  {
    if calls != [] {
      SqlAlternates(content, calls[..|calls| - 1]);
      StepKeepsInStep(Run(State(0, [], content, content), calls[..|calls| - 1]), calls[|calls| - 1]);
    }
  }

  // ---- the outermost end decides --------------------------------------------------------------------

  function Change<T>(c: Call<T>): int {
    match c
    case Begin => 1
    case Commit => -1
    case Rollback => -1
    case Write(_) => 0
  }

  function Depth<T>(calls: seq<Call<T>>): int
    decreases |calls|
  {
    if calls == [] then 0 else Depth(calls[..|calls| - 1]) + Change(calls[|calls| - 1])
  }

  /** Never ends more than it began. */
  ghost predicate Matched<T>(calls: seq<Call<T>>) {
    forall k :: 0 <= k <= |calls| ==> Depth(calls[..k]) >= 0
  }

  /** The content after the last write, whatever was begun, committed or rolled back around it. */
  function LastWritten<T>(calls: seq<Call<T>>, default: T): T
    decreases |calls|
  {
    if calls == [] then default
    else
      match calls[|calls| - 1]
      case Write(content) => content
      case _ => LastWritten(calls[..|calls| - 1], default)
  }

  lemma MatchedPrefix<T>(calls: seq<Call<T>>, n: nat)
    requires Matched(calls) && n <= |calls|
    ensures Matched(calls[..n])
  {
    forall k | 0 <= k <= n ensures Depth(calls[..n][..k]) >= 0 {
      assert calls[..n][..k] == calls[..k];
    }
  }

  /** Inside an open transaction, inner commits keep nothing and inner rollbacks undo nothing. */
  lemma {:induction false} InnerEndsDoNothing<T>(s: State<T>, inner: seq<Call<T>>)
    requires s.counter >= 1 && Matched(inner)
    ensures Run(s, inner) ==
            State(s.counter + Depth(inner), s.sql, s.committed, LastWritten(inner, s.working))
    decreases |inner|
  {
    if inner != [] {
      var n := |inner| - 1;
      MatchedPrefix(inner, n);
      InnerEndsDoNothing(s, inner[..n]);
      assert inner[..|inner|] == inner;
      assert Depth(inner[..|inner|]) >= 0 && Depth(inner[..n]) >= 0;
    }
  }

  lemma {:induction false} RunAppend<T>(s: State<T>, a: seq<Call<T>>, b: seq<Call<T>>)
    ensures Run(s, a + b) == Run(Run(s, a), b)
    decreases |b|
  {
    if b == [] {
      assert a + b == a;
    } else {
      assert (a + b)[..|a + b| - 1] == a + b[..|b| - 1];
      RunAppend(s, a, b[..|b| - 1]);
    }
  }

  lemma RunOne<T>(s: State<T>, c: Call<T>)
    ensures Run(s, [c]) == Step(s, c)
  {
    assert [c][..0] == [] && Run(s, []) == s;
  }

  /**
   A bracketed sequence of calls commits its last write if its outermost end is a commit, and leaves the database
   as it was if it is a rollback. It issues one BEGIN and that end, and leaves the counter where it was.
   */
  lemma OutermostEndDecides<T>(s: State<T>, inner: seq<Call<T>>, end: Call<T>)
    requires s.counter == 0 && s.committed == s.working && Matched(inner) && Depth(inner) == 0
    requires end.Commit? || end.Rollback?
    ensures var kept := if end.Commit? then LastWritten(inner, s.working) else s.committed;
            Run(s, [Begin] + inner + [end]) ==
            State(0, s.sql + [SqlBegin, if end.Commit? then SqlCommit else SqlRollback], kept, kept)
  {
    var begun := BeginCall(s);
    RunOne(s, Begin);
    RunAppend(s, [Begin], inner);
    InnerEndsDoNothing(begun, inner);
    RunAppend(s, [Begin] + inner, [end]);
    RunOne(Run(s, [Begin] + inner), end);
  }

  // ---- the object -----------------------------------------------------------------------------------

  class Database<T> {
    var counter: int
    var sql: seq<Sql>
    var committed: T
    var working: T
    ghost var faults: nat // statements and queries that failed so far

    constructor (content: T)
      ensures Abs() == State(0, [], content, content)
    {
      counter, sql, committed, working, faults := 0, [], content, content, 0;
    }

    ghost function Abs(): State<T>
      reads this
    {
      State(counter, sql, committed, working)
    }

    method BeginTransaction() returns (ok: bool)
      modifies `counter, `sql, `committed, `working
      ensures Abs() == BeginCall(old(Abs()))
      ensures ok <==> old(counter) in {0, 1}
    {
      var previous := counter;
      counter := counter + 1;
      if previous == 0 {
        sql := sql + [SqlBegin];
        return true;
      } else if previous == 1 {
        return true;
      } else {
        return false;
      }
    }

    method CommitTransaction() returns (ok: bool)
      modifies `counter, `sql, `committed, `working
      ensures Abs() == CommitCall(old(Abs()))
      ensures ok <==> old(counter) != 0
    {
      var previous := counter;
      counter := counter - 1;
      if previous == 1 {
        sql, committed := sql + [SqlCommit], working;
        return true;
      } else if previous == 0 {
        return false;
      } else {
        return true;
      }
    }

    method RollbackTransaction() returns (ok: bool)
      modifies `counter, `sql, `committed, `working
      ensures Abs() == RollbackCall(old(Abs()))
      ensures ok <==> old(counter) != 0
    {
      var previous := counter;
      counter := counter - 1;
      if previous == 1 {
        sql, working := sql + [SqlRollback], committed;
        return true;
      } else if previous == 0 {
        return false;
      } else {
        return true;
      }
    }

    /** Any statement or query may fail. */
    method Fails() returns (failed: bool)
      modifies `faults
      ensures faults == old(faults) + if failed then 1 else 0
    {
      failed := *;
      if failed { faults := faults + 1; }
    }

    method Execute(content: T)
      modifies `counter, `sql, `committed, `working
      ensures Abs() == WriteCall(old(Abs()), content)
    {
      working := content;
      if counter <= 0 {
        committed := content;
      }
    }
  }
}
