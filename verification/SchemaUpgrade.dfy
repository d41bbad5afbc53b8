/**
 The schema upgrade loop (database/database.cpp:66-179): upgrade steps are looked up by the version the database
 reports, until it reports the target version.
 */
module SchemaUpgrade {
  import opened Basics

  datatype Content = Content(userVersion: int, rows: seq<string>)

  /** A statement or upgrade function may fail after it has changed something. */
  datatype Outcome = Done(after: Content) | Broken(after: Content)

  type Effect = Content -> Outcome

  datatype Operation = Operation(fn: Option<Effect>, statements: Option<seq<Effect>>)

  /** A C array that ends at the first entry without statements. */
  ghost predicate IsSentinel(table: seq<Operation>, n: int) {
    0 <= n < |table| && table[n].statements.None? && forall i :: 0 <= i < n ==> table[i].statements.Some?
  }

  method LengthOf(table: seq<Operation>, ghost sentinel: nat) returns (count: nat)
    requires IsSentinel(table, sentinel)
    ensures count == sentinel
  {
    count := 0;
    while table[count].statements.Some?
      invariant count <= sentinel
      decreases sentinel - count
    {
      count := count + 1;
    }
  }

  // ---- what an upgrade amounts to -------------------------------------------------------------------

  function RunStatements(statements: seq<Effect>, c: Content): Outcome
    decreases |statements|
  {
    if statements == [] then Done(c)
    else
      match RunStatements(statements[..|statements| - 1], c)
      case Done(after) => statements[|statements| - 1](after)
      case Broken(after) => Broken(after)
  }

  function RunOperation(op: Operation, c: Content): Outcome {
    match if op.fn.Some? then op.fn.value(c) else Done(c)
    case Done(after) => if op.statements.Some? then RunStatements(op.statements.value, after) else Done(after)
    case Broken(after) => Broken(after)
  }

  /** The content after every step up to the target, each of which raises the version; None if one does not. */
  function Upgraded(table: seq<Operation>, target: int, c: Content): Option<Content>
    requires target <= |table|
    decreases target - c.userVersion
  {
    if c.userVersion >= target then Some(c)
    else if c.userVersion < 0 then None
    else
      match RunOperation(table[c.userVersion], c)
      case Broken(_) => None
      case Done(after) => if after.userVersion <= c.userVersion then None else Upgraded(table, target, after)
  }

  // ---- the same, step by step -----------------------------------------------------------------------

  /** `contents` are the contents before each of the effects, and at the end: they all succeed, in their order. */
  ghost predicate AllDone(effects: seq<Effect>, contents: seq<Content>) {
    |contents| == |effects| + 1 && forall i :: 0 <= i < |effects| ==> effects[i](contents[i]) == Done(contents[i + 1])
  }

  /** The first `n` effects succeed and the next one breaks, leaving `after`. */
  ghost predicate BreaksAt(effects: seq<Effect>, n: nat, contents: seq<Content>, after: Content) {
    n < |effects| && AllDone(effects[..n], contents) && effects[n](contents[n]) == Broken(after)
  }

  lemma {:induction false} StatementsTrace(statements: seq<Effect>, c: Content) returns (contents: seq<Content>, n: nat)
    ensures |contents| > 0 && contents[0] == c
    ensures match RunStatements(statements, c)
            case Done(after) => AllDone(statements, contents) && contents[|statements|] == after
            case Broken(after) => BreaksAt(statements, n, contents, after)
    decreases |statements|
  {
    contents, n := [c], 0;
    if statements != [] {
      var shorter, last := statements[..|statements| - 1], statements[|statements| - 1];
      contents, n := StatementsTrace(shorter, c);
      match RunStatements(shorter, c) {
        case Done(after) =>
          n := |shorter|;
          if last(after).Done? { contents := contents + [last(after).after]; }
        case Broken(_) =>
          assert statements[..n] == shorter[..n];
      }
    }
  }

  lemma {:induction false} TraceIsRun(statements: seq<Effect>, contents: seq<Content>)
    requires AllDone(statements, contents)
    ensures RunStatements(statements, contents[0]) == Done(contents[|statements|])
    decreases |statements|
  {
    if statements != [] {
      var n := |statements| - 1;
      TraceIsRun(statements[..n], contents[..n + 1]);
    }
  }

  /**
   Statements run one after the other, each on what the one before it left, up to the first that breaks: the outcome is
   Done exactly with such a sequence of contents, and Broken exactly with one that breaks off.
   */
  lemma StatementsRunInOrder(statements: seq<Effect>, c: Content, after: Content)
    ensures RunStatements(statements, c) == Done(after) <==>
            exists contents :: AllDone(statements, contents) && contents[0] == c && contents[|statements|] == after
    ensures RunStatements(statements, c) == Broken(after) <==>
            exists n: nat, contents :: BreaksAt(statements, n, contents, after) && contents[0] == c
  {
    var trace, k := StatementsTrace(statements, c);
    if contents :| AllDone(statements, contents) && contents[0] == c && contents[|statements|] == after {
      TraceIsRun(statements, contents);
    }
    if n: nat, contents :| BreaksAt(statements, n, contents, after) && contents[0] == c {
      TraceIsRun(statements[..n], contents);
      assert statements[..n + 1][..n] == statements[..n];
      BrokenStaysBroken(statements, n + 1, c);
    }
  }

  /** An entry of the table: its function comes first, then its statements. */
  lemma FunctionRunsFirst(op: Operation, c: Content)
    ensures RunOperation(op, c) ==
            RunStatements((if op.fn.Some? then [op.fn.value] else []) + op.statements.GetOr([]), c)
  {
    var statements := op.statements.GetOr([]);
    if op.fn.Some? {
      StatementsAppend([op.fn.value], statements, c);
      assert [op.fn.value][..0] == [];
      assert RunStatements([op.fn.value], c) == op.fn.value(c);
    } else {
      assert [] + statements == statements;
    }
  }

  lemma {:induction false} StatementsAppend(a: seq<Effect>, b: seq<Effect>, c: Content)
    ensures RunStatements(a + b, c) ==
            match RunStatements(a, c) { case Done(after) => RunStatements(b, after) case Broken(after) => Broken(after) }
    decreases |b|
  {
    if b == [] {
      assert a + b == a;
    } else {
      assert (a + b)[..|a + b| - 1] == a + b[..|b| - 1];
      StatementsAppend(a, b[..|b| - 1], c);
    }
  }

  /** An upgrade: each content is below the target and its own entry of the table leads to the next, which is higher. */
  ghost predicate Climbs(table: seq<Operation>, target: int, contents: seq<Content>) {
    && target <= |table| && |contents| > 0 && contents[|contents| - 1].userVersion >= target
    && forall i :: 0 <= i < |contents| - 1 ==>
         && 0 <= contents[i].userVersion < target && contents[i].userVersion < contents[i + 1].userVersion
         && RunOperation(table[contents[i].userVersion], contents[i]) == Done(contents[i + 1])
  }

  lemma {:induction false} ClimbOf(table: seq<Operation>, target: int, c: Content) returns (contents: seq<Content>)
    requires target <= |table| && Upgraded(table, target, c).Some?
    ensures Climbs(table, target, contents) && contents[0] == c
    ensures contents[|contents| - 1] == Upgraded(table, target, c).value
    decreases target - c.userVersion
  {
    contents := [c];
    if c.userVersion < target {
      var rest := ClimbOf(table, target, RunOperation(table[c.userVersion], c).after);
      contents := [c] + rest;
    }
  }

  lemma {:induction false} ClimbIsUpgrade(table: seq<Operation>, target: int, contents: seq<Content>)
    requires Climbs(table, target, contents)
    ensures Upgraded(table, target, contents[0]) == Some(contents[|contents| - 1])
    decreases |contents|
  {
    if |contents| > 1 {
      ClimbIsUpgrade(table, target, contents[1..]);
    }
  }

  /** A database is upgraded to `u` if and only if the table leads there, entry by entry. */
  lemma UpgradesAreClimbs(table: seq<Operation>, target: int, c: Content, u: Content)
    requires target <= |table|
    ensures Upgraded(table, target, c) == Some(u) <==>
            exists contents :: Climbs(table, target, contents) && contents[0] == c && contents[|contents| - 1] == u
  {
    if Upgraded(table, target, c) == Some(u) {
      var contents := ClimbOf(table, target, c);
    }
    if contents :| Climbs(table, target, contents) && contents[0] == c && contents[|contents| - 1] == u {
      ClimbIsUpgrade(table, target, contents);
    }
  }

  /** The slot after the last entry has no statements: with no function either, landing on it is a failure. */
  lemma EmptySentinelFails(table: seq<Operation>, sentinel: nat, c: Content)
    requires IsSentinel(table, sentinel) && table[sentinel].fn.None? && c.userVersion == sentinel
    ensures Upgraded(table, sentinel + 1, c) == None
  {
    assert RunOperation(table[sentinel], c) == Done(c);
  }

  /** With no step for it, a version below the target is never upgraded: only the target and above are. */
  lemma {:induction false} UpgradedIsAtTarget(table: seq<Operation>, target: int, c: Content)
    requires target <= |table|
    ensures var u := Upgraded(table, target, c);
            u.Some? ==> u.value.userVersion >= target && u.value.userVersion >= c.userVersion
    decreases target - c.userVersion
  {
    if 0 <= c.userVersion < target {
      match RunOperation(table[c.userVersion], c)
      case Broken(_) =>
      case Done(after) =>
        if after.userVersion > c.userVersion {
          UpgradedIsAtTarget(table, target, after);
        }
    }
  }

  // ---- the loop -------------------------------------------------------------------------------------

  datatype Result = Success | Failure | OutOfBounds

  class Connection {
    var committed: Content
    var working: Content
    var open: bool
    ghost var faults: nat // version queries, and ends of transactions, that failed so far

    /** PRAGMA user_version, BEGIN, COMMIT and ROLLBACK may fail, and then change nothing. */
    method Fails() returns (failed: bool)
      modifies `faults
      ensures faults == old(faults) + if failed then 1 else 0
    {
      failed := *;
      if failed { faults := faults + 1; }
    }

    method Execute(effect: Effect) returns (ok: bool)
      modifies `working
      ensures effect(old(working)) == if ok then Done(working) else Broken(working)
    {
      var outcome := effect(working);
      working := outcome.after;
      return outcome.Done?;
    }

    method ExecuteAll(statements: seq<Effect>) returns (ok: bool)
      modifies `working
      ensures RunStatements(statements, old(working)) == if ok then Done(working) else Broken(working)
    {
      for i := 0 to |statements|
        invariant RunStatements(statements[..i], old(working)) == Done(working)
      {
        var done := Execute(statements[i]);
        assert statements[..i + 1][..i] == statements[..i];
        if !done {
          BrokenStaysBroken(statements, i + 1, old(working));
          return false;
        }
      }
      assert statements[..|statements|] == statements;
      return true;
    }

    method ExecuteOperation(op: Operation) returns (ok: bool)
      modifies `working
      ensures RunOperation(op, old(working)) == if ok then Done(working) else Broken(working)
    {
      if op.fn.Some? {
        ok := Execute(op.fn.value);
        if !ok { return; }
      }
      ok := true;
      if op.statements.Some? {
        ok := ExecuteAll(op.statements.value);
      }
    }

    method QueryVersion() returns (ok: bool, version: int)
      modifies `faults
      ensures faults >= old(faults) && (ok <==> faults == old(faults))
      ensures ok ==> version == working.userVersion
    {
      var failed := Fails();
      ok := !failed;
      version := working.userVersion;
    }

    /**
     Without a fault, the outcome is what the steps amount to. The table is left only to the front, and only for a
     database that reports a negative version.
     */
    method ExecuteUpgradeStatements(table: seq<Operation>, target: int, ghost sentinel: nat)
      returns (result: Result, rounds: nat)
      requires IsSentinel(table, sentinel)
      modifies `working, `faults
      ensures faults >= old(faults)
      ensures rounds <= if target > old(working).userVersion then target - old(working).userVersion else 0
      ensures target != sentinel + 1 ==> result == Failure && working == old(working) && faults == old(faults)
      ensures target == sentinel + 1 ==>
                && (result == Success ==> Upgraded(table, target, old(working)) == Some(working) && faults == old(faults))
                && (result == OutOfBounds ==> old(working).userVersion < 0)
                && (faults == old(faults) ==> (result == OutOfBounds <==> old(working).userVersion < 0))
                && (faults == old(faults) && result == Failure ==> Upgraded(table, target, old(working)) == None)
    {
      rounds := 0;
      var length := LengthOf(table, sentinel);
      if target != length + 1 { return Failure, rounds; }
      var ok, schemaVersion := QueryVersion();
      if !ok { return Failure, rounds; }
      while schemaVersion < target
        invariant faults == old(faults)
        invariant schemaVersion == working.userVersion && (old(working).userVersion >= 0 ==> schemaVersion >= 0)
        invariant rounds <= schemaVersion - old(working).userVersion
        invariant schemaVersion < target ==> rounds < target - old(working).userVersion
        invariant target > old(working).userVersion ==> rounds <= target - old(working).userVersion
        invariant old(working).userVersion < 0 || old(working).userVersion >= target ==>
                    working == old(working) && rounds == 0
        invariant Upgraded(table, target, old(working)) == Upgraded(table, target, working)
        decreases target - schemaVersion
      {
        if schemaVersion < 0 { return OutOfBounds, rounds; } // reads before the table
        rounds := rounds + 1;
        ok := ExecuteOperation(table[schemaVersion]);
        if !ok { return Failure, rounds; }
        var version;
        ok, version := QueryVersion();
        if !ok { return Failure, rounds; }
        if version <= schemaVersion { return Failure, rounds; }
        schemaVersion := version;
      }
      return Success, rounds;
    }

    /** The whole upgrade is one transaction: it reaches the target or leaves the database as it was. */
    method UpgradeDatabase(table: seq<Operation>, target: int, ghost sentinel: nat)
      returns (result: Result, rounds: nat)
      requires IsSentinel(table, sentinel) && !open && working == committed
      modifies this
      ensures faults >= old(faults)
      ensures result == Success ==> target == sentinel + 1 && committed.userVersion >= target
      ensures result == Success ==> Upgraded(table, target, old(committed)) == Some(committed)
      ensures result != Success ==> committed == old(committed)
      // without a fault: success exactly if the table leads to the target
      ensures faults == old(faults) ==> (result == OutOfBounds <==> target == sentinel + 1 && committed.userVersion < 0)
      ensures faults == old(faults) ==>
                (result == Success <==> target == sentinel + 1 && Upgraded(table, target, old(committed)).Some?)
      ensures faults == old(faults) && result != OutOfBounds ==> !open && working == committed
      ensures rounds <= if target > old(committed).userVersion then target - old(committed).userVersion else 0
    {
      rounds := 0;
      var failed := Fails();
      if failed { return Failure, rounds; }
      open := true;
      result, rounds := ExecuteUpgradeStatements(table, target, sentinel);
      if target == sentinel + 1 {
        UpgradedIsAtTarget(table, target, old(committed));
      }
      if result == OutOfBounds { return; }
      failed := Fails();
      if failed { return Failure, rounds; }
      if result == Success {
        committed := working;
      } else {
        working := committed;
      }
      open := false;
    }
  }

  lemma {:induction false} BrokenStaysBroken(statements: seq<Effect>, n: nat, c: Content)
    requires n <= |statements| && RunStatements(statements[..n], c).Broken?
    ensures RunStatements(statements, c) == RunStatements(statements[..n], c)
    decreases |statements|
  {
    if n == |statements| {
      assert statements[..n] == statements;
    } else {
      var shorter := statements[..|statements| - 1];
      assert shorter[..n] == statements[..n];
      BrokenStaysBroken(shorter, n, c);
    }
  }
}
