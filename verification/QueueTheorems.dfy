/**
 What holds in every state the request queue can reach, from an arbitrary value of the shared id counter,
 whatever clients, handlers, completions and the yield timer do (daemon/requestqueue.cpp:52-274).
 */
module QueueTheorems {
  import opened Basics
  import opened QueueSpec
  import opened QueueInvariant

  ghost predicate Reachable(counter: Id, run: seq<Input>, s: State) {
    RunAllowed(Init(counter), run) && s == Execute(Init(counter), run)
  }

  lemma ReachableKeepsInvariant(counter: Id, run: seq<Input>, s: State)
    requires Reachable(counter, run, s)
    ensures Invariant(s)
  {
    RunKeeps(Init(counter), run);
  }

  // ---- wakeups --------------------------------------------------------------------------------------

  /** In the pass from index `i` on, every handler of a finished request completes. */
  ghost predicate HandlersComplete(s: State, i: nat, turns: seq<Turn>)
    decreases |turns|
  {
    && i <= |s.requests| <= i + |turns|
    && (i < |s.requests| ==>
          && (s.requests[i].status == Finished ==> turns[0].completed)
          && var (s1, i1) := TakeTurn(s, i, turns[0]);
             (s1.requests != [] && turns[0].timeIsUp) || HandlersComplete(s1, i1, turns[1..]))
  }

  ghost predicate HandlersCompleteIn(s: State, run: seq<Input>)
    requires RunPossible(s, run)
    decreases |run|
  {
    run != [] ==>
      && (run[0].NextEvent? && s.events[0].HandleRequests? ==>
            HandlersComplete(s.(events := s.events[1..]), 0, run[0].turns))
      && HandlersCompleteIn(Step(s, run[0]), run[1..])
  }

  lemma {:induction false} CallsStayAwake(s: State, calls: seq<Call>, n: nat)
    requires n <= |s.requests| && AwakeBelow(s.events, s.requests, n)
    ensures AwakeBelow(RunCalls(s, calls).events, RunCalls(s, calls).requests, n)
    decreases |calls|
  {
    if calls != [] {
      var r := RunCall(s, calls[0]);
      assert HandleRequests in s.events ==> HandleRequests in r.events by {
        assert s.events <= r.events;
      }
      assert r.requests == s.requests || r.events[|r.events| - 1] == HandleRequests;
      CallsStayAwake(r, calls[1..], n);
    }
  }

  lemma TurnStaysAwake(s: State, i: nat, turn: Turn)
    requires i < |s.requests| && AwakeBelow(s.events, s.requests, i)
    requires s.requests[i].status == Finished ==> turn.completed
    ensures var (r, i1) := TakeTurn(s, i, turn); AwakeBelow(r.events, r.requests, i1)
  {
    hide RunCalls;
    match s.requests[i].status
    case InProgress =>
    case Pending =>
      var s0 := StartRequest(s, i);
      CallsStayAwake(s0, turn.calls, i + 1);
    case Finished =>
      CallsStayAwake(s, turn.calls, i);
  }

  lemma {:induction false} PassStaysAwake(s: State, i: nat, turns: seq<Turn>)
    requires i <= |s.requests| <= i + |turns| && HandlersComplete(s, i, turns) && AwakeBelow(s.events, s.requests, i)
    ensures var r := Pass(s, i, turns); AwakeBelow(r.events, r.requests, |r.requests|)
    decreases |turns|
  {
    hide AwakeBelow;
    if i < |s.requests| {
      TurnStaysAwake(s, i, turns[0]);
      var (s1, i1) := TakeTurn(s, i, turns[0]);
      if s1.requests != [] && turns[0].timeIsUp {
        PostWakes(s1);
      } else {
        PassStaysAwake(s1, i1, turns[1..]);
      }
    }
  }

  lemma PostWakes(s: State)
    ensures var r := Post(s, HandleRequests); AwakeBelow(r.events, r.requests, |r.requests|)
  {
    var r := Post(s, HandleRequests);
    assert r.events[|r.events| - 1] == HandleRequests;
  }

  lemma StepStaysAwake(s: State, input: Input)
    requires Possible(s, input) && AwakeBelow(s.events, s.requests, |s.requests|)
    requires input.NextEvent? && s.events[0].HandleRequests? ==>
               HandlersComplete(s.(events := s.events[1..]), 0, input.turns)
    ensures var r := Step(s, input); AwakeBelow(r.events, r.requests, |r.requests|)
  {
    var r := Step(s, input);
    match input {
      case NextEvent(turns) =>
        var popped := s.(events := s.events[1..]);
        if s.events[0].HandleRequests? {
          PassStaysAwake(popped, 0, turns);
        } else if s.events[0].id in s.enqueuing {
          assert r.events[|r.events| - 1] == HandleRequests;
        } else {
          assert s.events == [s.events[0]] + r.events;
        }
      case Completion(id, _, _) =>
        assert s.events <= r.events;
        if IndexOf(s.requests, id) < |s.requests| {
          assert r.events[|r.events| - 1] == HandleRequests;
        }
      case _ =>
        assert s.events <= r.events;
    }
  }

  lemma {:induction false} RunStaysAwake(s: State, run: seq<Input>)
    requires RunPossible(s, run) && HandlersCompleteIn(s, run) && AwakeBelow(s.events, s.requests, |s.requests|)
    ensures var r := Execute(s, run); AwakeBelow(r.events, r.requests, |r.requests|)
    decreases |run|
  {
    hide AwakeBelow, HandlersComplete, Step;
    if run != [] {
      StepStaysAwake(s, run[0]);
      RunStaysAwake(Step(s, run[0]), run[1..]);
    }
  }

  /**
   No lost wakeup: a request that waits for the dispatch loop has a handleRequests event queued. All that is asked of the
   surroundings is that handlers of finished requests complete; completions may be for any id, at any time.
   */
  lemma NoLostWakeup(counter: Id, run: seq<Input>, s: State, i: nat)
    requires RunPossible(Init(counter), run) && HandlersCompleteIn(Init(counter), run) && s == Execute(Init(counter), run)
    requires i < |s.requests| && s.requests[i].status in {Pending, Finished}
    ensures HandleRequests in s.events
  {
    RunStaysAwake(Init(counter), run);
  }

  /** In a pass, no handler calls back into the queue and time does not run out. */
  ghost predicate Quiet(turns: seq<Turn>) {
    forall i :: 0 <= i < |turns| ==> turns[i].calls == [] && !turns[i].timeIsUp
  }

  /**
   And it is needed, exactly: if nothing else posts an event, a pass leaves no request waiting if and only if every handler
   of a finished request completes. One that declines, as for an unknown request type, strands its request.
   */
  lemma {:induction false} DecliningHandlerStrandsRequest(s: State, i: nat, turns: seq<Turn>)
    requires i <= |s.requests| <= i + |turns| && Quiet(turns) && HandleRequests !in s.events
    requires forall j :: 0 <= j < i ==> s.requests[j].status == InProgress
    ensures Pass(s, i, turns).events == s.events
    ensures (forall j :: 0 <= j < |Pass(s, i, turns).requests| ==> Pass(s, i, turns).requests[j].status == InProgress)
            <==> HandlersComplete(s, i, turns)
    decreases |turns|
  {
    if i < |s.requests| {
      var (s1, i1) := TakeTurn(s, i, turns[0]);
      if s.requests[i].status == Finished && !turns[0].completed {
        assert s1 == s && i1 == i + 1;
        StrandedStays(s, i + 1, turns[1..], i);
      } else {
        DecliningHandlerStrandsRequest(s1, i1, turns[1..]);
      }
    }
  }

  /** Such a state is reached: one request is taken up, finished, and then declined. */
  lemma StrandingRun(counter: Id) returns (run: seq<Input>, s: State)
    ensures RunPossible(Init(counter), run) && s == Execute(Init(counter), run)
    ensures |s.requests| == 1 && s.requests[0].status == Finished && s.events == []
  {
    var declines := [Turn([], false, false)];
    var id, s0 := Succ(counter), Init(counter);
    var request := Request(0, id, DBus(0, []), true, Pending, []);
    var s1 := Step(s0, ClientCalls(Some(0), []));
    assert Probe(counter, id, Used(s0)) == Some(id);
    assert s1 == State(id, map[id := request], [], [FinishEnqueue(id)], [DBus(0, [])], [], [], map[]);
    var s2 := Step(s1, NextEvent([]));
    assert s2 == State(id, map[], [request], [HandleRequests], [DBus(0, [])], [], [], map[]) by {
      assert map[id := request] - {id} == map[];
    }
    var s3 := Step(s2, NextEvent(declines));
    OneTurnPass(s2.(events := []), declines[0]);
    assert s3.requests == [request.(status := InProgress)] && s3.events == [];
    var s4 := Step(s3, Completion(id, [], 0));
    assert s4.requests == [request.(status := Finished)] && s4.events == [HandleRequests];
    s := Step(s4, NextEvent(declines));
    OneTurnPass(s4.(events := []), declines[0]);
    run := [ClientCalls(Some(0), []), NextEvent([]), NextEvent(declines), Completion(id, [], 0), NextEvent(declines)];
    hide Step;
    ExecuteOne(s4, run[4..], s);
    ExecuteOne(s3, run[3..], s4);
    ExecuteOne(s2, run[2..], s3);
    ExecuteOne(s1, run[1..], s2);
    ExecuteOne(s0, run, s1);
    assert run[4..][1..] == [];
    assert run[3..][1..] == run[4..] && run[2..][1..] == run[3..] && run[1..][1..] == run[2..];
  }

  lemma OneTurnPass(s: State, turn: Turn)
    requires |s.requests| == 1 && turn == Turn([], false, false)
    ensures Pass(s, 0, [turn]) == TakeTurn(s, 0, turn).0
  {
    assert [turn][1..] == [];
  }

  lemma ExecuteOne(s: State, run: seq<Input>, next: State)
    requires run != [] && Possible(s, run[0]) && next == Step(s, run[0])
    ensures RunPossible(s, run) <==> RunPossible(next, run[1..])
    ensures RunPossible(s, run) ==> Execute(s, run) == Execute(next, run[1..])
  {
    hide Step;
  }

  /** What lies before the iterator is not touched by a quiet pass. */
  lemma {:induction false} StrandedStays(s: State, i: nat, turns: seq<Turn>, k: nat)
    requires k < i <= |s.requests| <= i + |turns| && Quiet(turns)
    ensures var r := Pass(s, i, turns); r.events == s.events && k < |r.requests| && r.requests[k] == s.requests[k]
    decreases |turns|
  {
    if i < |s.requests| {
      var (s1, i1) := TakeTurn(s, i, turns[0]);
      StrandedStays(s1, i1, turns[1..], k);
    }
  }

  /** With no event left, everything accepted has been dispatched and nothing finished is left unanswered. */
  lemma QuiescentMeansServed(counter: Id, run: seq<Input>, s: State)
    requires Reachable(counter, run, s) && s.events == []
    ensures s.enqueuing == map[]
    ensures forall i :: 0 <= i < |s.requests| ==> s.requests[i].status == InProgress
    ensures |s.dispatched| == |s.callers|
  {
    ReachableKeepsInvariant(counter, run, s);
    assert s.enqueuing.Keys == {};
    StartedIs(s.requests, |s.requests|);
  }

  ghost function UpTo(n: nat): (r: seq<nat>)
    ensures |r| == n && forall i :: 0 <= i < n ==> r[i] == i
  {
    seq(n, i => i)
  }

  /** FIFO: requests go to the pending handler in the order in which they were accepted, none skipped. */
  lemma DispatchIsFifo(counter: Id, run: seq<Input>, s: State)
    requires Reachable(counter, run, s)
    ensures s.dispatched <= UpTo(|s.callers|)
    ensures forall i, j :: 0 <= i < j < |s.requests| && s.requests[i].status == Pending ==>
              s.requests[j].status == Pending && s.requests[i].serial < s.requests[j].serial
  {
    ReachableKeepsInvariant(counter, run, s);
    forall i, j | 0 <= i < j < |s.requests| && s.requests[i].status == Pending
      ensures s.requests[j].status == Pending && s.requests[i].serial < s.requests[j].serial
    {
      assert Started(s.requests) <= i;
    }
  }

  /** The "should never happen" branch of finishEnqueueRequest is not reached. */
  lemma FinishEnqueueFindsItsRequest(counter: Id, run: seq<Input>, s: State)
    requires Reachable(counter, run, s)
    requires s.events != [] && s.events[0].FinishEnqueue?
    ensures s.events[0].id in s.enqueuing && s.enqueuing[s.events[0].id].id == s.events[0].id
  {
    ReachableKeepsInvariant(counter, run, s);
    PopParked(s);
  }

  /** Ids in use are distinct, and a D-Bus request has its message before any handler can see it. */
  lemma LiveRequestsAreAnswerable(counter: Id, run: seq<Input>, s: State)
    requires Reachable(counter, run, s)
    ensures forall i, j :: 0 <= i < j < |s.requests| ==> s.requests[i].id != s.requests[j].id
    ensures forall i :: 0 <= i < |s.requests| ==> s.requests[i].id !in s.enqueuing
    ensures forall i :: 0 <= i < |s.requests| && s.requests[i].origin.DBus? ==> s.requests[i].hasMessage
  {
    ReachableKeepsInvariant(counter, run, s);
  }

  /**
   A late reply carries what was reported for that very request. This rests on completions being for the request that has
   the id at that time: see StaleCompletionIsMistaken.
   */
  lemma LateRepliesAreTheirOwn(counter: Id, run: seq<Input>, s: State, i: nat)
    requires Reachable(counter, run, s)
    requires i < |s.retired| && s.retired[i].RepliedLater?
    ensures s.retired[i].serial in s.completions
    ensures s.completions[s.retired[i].serial] == s.retired[i].outParams
  {
    ReachableKeepsInvariant(counter, run, s);
  }

  /** The code looks at the id only: a completion meant for another request is taken for this one's. */
  lemma StaleCompletionIsMistaken(s: State, id: Id, outParams: Params, serial: nat, k: nat)
    requires k < |s.requests| && k == IndexOf(s.requests, id)
    ensures var r := RequestFinished(s, id, outParams, serial);
            && r.requests[k].status == Finished && r.requests[k].outParams == outParams
            && r.completions == s.completions[serial := outParams]
            && (serial == s.requests[k].serial ==> Reported(r.completions, r.requests[k].serial, outParams))
            && (serial != s.requests[k].serial && !Reported(s.completions, s.requests[k].serial, outParams) ==>
                  !Reported(r.completions, r.requests[k].serial, outParams))
  {
  }

  // ---- what callers get -----------------------------------------------------------------------------

  /** Request `serial` is finished with these out-parameters, or was answered with them. */
  ghost predicate Settled(requests: seq<Request>, retired: seq<Retirement>, serial: nat, outParams: Params) {
    || RepliedLater(serial, outParams) in retired
    || exists j :: 0 <= j < |requests| && FinishedWith(requests[j], serial, outParams)
  }

  ghost predicate FinishedWith(request: Request, serial: nat, outParams: Params) {
    request.serial == serial && request.status == Finished && request.outParams == outParams
  }

  lemma CompletingSettles(before: seq<Request>, after: seq<Request>, retired: seq<Retirement>, serial: nat,
                          outParams: Params)
    requires OnlyCompletes(before, after) && Settled(before, retired, serial, outParams)
    ensures Settled(after, retired, serial, outParams)
  {
    if RepliedLater(serial, outParams) !in retired {
      var j :| 0 <= j < |before| && FinishedWith(before[j], serial, outParams);
      assert FinishedWith(after[j], serial, outParams);
    }
  }

  /** A request that is finished goes only by being answered with its out-parameters. */
  lemma RetiringSettles(s: State, i: nat, how: Retirement, serial: nat, outParams: Params)
    requires i < |s.requests| && Settled(s.requests, s.retired, serial, outParams)
    requires FinishedWith(s.requests[i], serial, outParams) ==> how == RepliedLater(serial, outParams)
    ensures var r := Retire(s, i, how); Settled(r.requests, r.retired, serial, outParams)
  {
    var r := Retire(s, i, how);
    assert r.retired[|s.retired|] == how;
    if RepliedLater(serial, outParams) !in r.retired {
      var j :| 0 <= j < |s.requests| && FinishedWith(s.requests[j], serial, outParams);
      Without(s.requests, i, r.requests);
      assert FinishedWith(r.requests[if j < i then j else j - 1], serial, outParams);
    }
  }

  lemma StartingSettles(s: State, i: nat, serial: nat, outParams: Params)
    requires i < |s.requests| && s.requests[i].status == Pending && Settled(s.requests, s.retired, serial, outParams)
    ensures var r := StartRequest(s, i); Settled(r.requests, r.retired, serial, outParams)
  {
    if RepliedLater(serial, outParams) !in s.retired {
      var j :| 0 <= j < |s.requests| && FinishedWith(s.requests[j], serial, outParams);
      assert FinishedWith(StartRequest(s, i).requests[j], serial, outParams);
    }
  }

  lemma TurnSettles(s: State, i: nat, turn: Turn, serial: nat, outParams: Params)
    requires Consistent(s) && i < |s.requests| && i <= Started(s.requests)
    requires AwakeBelow(s.events, s.requests, i) && TurnAllowed(s, i, turn)
    requires Settled(s.requests, s.retired, serial, outParams) && serial < |s.dispatched|
    ensures var r := TakeTurn(s, i, turn).0;
            Settled(r.requests, r.retired, serial, outParams) && |s.dispatched| <= |r.dispatched|
  {
    hide Consistent, Settled, AwakeBelow;
    var request := s.requests[i];
    match request.status {
      case InProgress =>
      case Pending =>
        var s0 := StartRequest(s, i);
        StartKeeps(s, i);
        StartingSettles(s, i, serial, outParams);
        CallsKeep(s0, turn.calls, i + 1);
        var s1 := RunCalls(s0, turn.calls);
        CompletingSettles(s0.requests, s1.requests, s0.retired, serial, outParams);
        PendingIsNew(s, i);
        if turn.completed { RetiringSettles(s1, i, RepliedAtOnce(request.serial), serial, outParams); }
      case Finished =>
        CallsKeep(s, turn.calls, i);
        var s1 := RunCalls(s, turn.calls);
        CompletingSettles(s.requests, s1.requests, s.retired, serial, outParams);
        RetiringSettles(s1, i, RepliedLater(request.serial, request.outParams), serial, outParams);
    }
  }

  /** What is Pending was not given to a handler before, what is not was. */
  lemma PendingIsNew(s: State, i: nat)
    requires Consistent(s) && i < |s.requests|
    ensures s.requests[i].status == Pending <==> s.requests[i].serial >= |s.dispatched|
  {
    hide ParkedIds;
  }

  lemma {:induction false} PassSettles(s: State, i: nat, turns: seq<Turn>, serial: nat, outParams: Params)
    requires Consistent(s) && i <= Started(s.requests)
    requires AwakeBelow(s.events, s.requests, i) && PassAllowed(s, i, turns)
    requires Settled(s.requests, s.retired, serial, outParams) && serial < |s.dispatched|
    ensures var r := Pass(s, i, turns); Settled(r.requests, r.retired, serial, outParams)
    decreases |turns|
  {
    hide Consistent, Settled, AwakeBelow;
    if i < |s.requests| {
      TurnKeeps(s, i, turns[0]);
      TurnSettles(s, i, turns[0], serial, outParams);
      var (s1, i1) := TakeTurn(s, i, turns[0]);
      if !(s1.requests != [] && turns[0].timeIsUp) {
        PassSettles(s1, i1, turns[1..], serial, outParams);
      }
    }
  }

  lemma SettledIsDispatched(s: State, serial: nat, outParams: Params)
    requires Consistent(s) && Settled(s.requests, s.retired, serial, outParams)
    ensures serial < |s.dispatched|
  {
    if RepliedLater(serial, outParams) in s.retired {
      hide InOrder;
    } else {
      var j :| 0 <= j < |s.requests| && FinishedWith(s.requests[j], serial, outParams);
      PendingIsNew(s, j);
    }
  }

  lemma StepSettles(s: State, input: Input, serial: nat, outParams: Params)
    requires Invariant(s) && Allowed(s, input) && Settled(s.requests, s.retired, serial, outParams)
    ensures var r := Step(s, input); Settled(r.requests, r.retired, serial, outParams)
  {
    hide Consistent, Settled;
    SettledIsDispatched(s, serial, outParams);
    match input {
      case Completion(id, params, of) =>
        RequestFinishedKeeps(s, id, params, of, |s.requests|);
        CompletingSettles(s.requests, Step(s, input).requests, s.retired, serial, outParams);
      case NextEvent(turns) =>
        if s.events[0].HandleRequests? {
          PopKeeps(s);
          PassSettles(s.(events := s.events[1..]), 0, turns, serial, outParams);
        } else {
          AppendingSettles(s, serial, outParams, Step(s, input).requests);
        }
      case _ =>
    }
  }

  lemma AppendingSettles(s: State, serial: nat, outParams: Params, longer: seq<Request>)
    requires Settled(s.requests, s.retired, serial, outParams) && s.requests <= longer
    ensures Settled(longer, s.retired, serial, outParams)
  {
    if RepliedLater(serial, outParams) !in s.retired {
      var j :| 0 <= j < |s.requests| && FinishedWith(s.requests[j], serial, outParams);
      assert FinishedWith(longer[j], serial, outParams);
    }
  }

  lemma {:induction false} RunSettles(s: State, run: seq<Input>, serial: nat, outParams: Params)
    requires Invariant(s) && RunAllowed(s, run) && Settled(s.requests, s.retired, serial, outParams)
    ensures var r := Execute(s, run); Invariant(r) && Settled(r.requests, r.retired, serial, outParams)
    decreases |run|
  {
    hide Invariant, Settled, Step;
    if run != [] {
      StepKeeps(s, run[0]);
      StepSettles(s, run[0], serial, outParams);
      RunSettles(Step(s, run[0]), run[1..], serial, outParams);
    }
  }

  /**
   The answer of a request that was finished: however the run goes on, the request is in the list with the out-parameters
   it was finished with until it is answered with exactly these.
   */
  lemma FinishedIsAnsweredWithItsParams(counter: Id, run: seq<Input>, s: State, i: nat, later: seq<Input>, r: State, k: nat)
    requires Reachable(counter, run, s) && i < |s.requests| && s.requests[i].status == Finished
    requires RunAllowed(s, later) && r == Execute(s, later)
    ensures Settled(r.requests, r.retired, s.requests[i].serial, s.requests[i].outParams)
    ensures k < |r.retired| && r.retired[k].serial == s.requests[i].serial ==>
              r.retired[k] == RepliedLater(s.requests[i].serial, s.requests[i].outParams)
  {
    var serial, outParams := s.requests[i].serial, s.requests[i].outParams;
    ReachableKeepsInvariant(counter, run, s);
    assert FinishedWith(s.requests[i], serial, outParams);
    RunSettles(s, later, serial, outParams);
    hide InOrder, RepliesMatch, IdsDistinct, ListsEachOnce, CallersKnown, Started, ParkedIds;
  }

  lemma {:induction false} RetiredGrows(s: State, i: nat, turns: seq<Turn>)
    requires i <= |s.requests| <= i + |turns|
    ensures s.retired <= Pass(s, i, turns).retired
    decreases |turns|
  {
    if i < |s.requests| {
      var (s1, i1) := TakeTurn(s, i, turns[0]);
      CallsRetireNothing(s, turns[0].calls);
      CallsRetireNothing(StartRequest(s, i), turns[0].calls);
      if !(s1.requests != [] && turns[0].timeIsUp) {
        RetiredGrows(s1, i1, turns[1..]);
      }
    }
  }

  lemma {:induction false} CallsRetireNothing(s: State, calls: seq<Call>)
    ensures RunCalls(s, calls).retired == s.retired && RunCalls(s, calls).dispatched == s.dispatched
    decreases |calls|
  {
    if calls != [] { CallsRetireNothing(RunCall(s, calls[0]), calls[1..]); }
  }

  /** And a pass that the timer does not cut short answers every request that is finished. */
  lemma {:induction false} UncutPassAnswersFinished(s: State, i: nat, turns: seq<Turn>, j: nat)
    requires Consistent(s) && i <= Started(s.requests)
    requires AwakeBelow(s.events, s.requests, i) && PassAllowed(s, i, turns)
    requires forall k :: 0 <= k < |turns| ==> !turns[k].timeIsUp
    requires i <= j < |s.requests| && s.requests[j].status == Finished
    ensures RepliedLater(s.requests[j].serial, s.requests[j].outParams) in Pass(s, i, turns).retired
    decreases |turns|
  {
    hide Consistent, AwakeBelow, TakeTurn, TurnAllowed;
    TurnKeeps(s, i, turns[0]);
    var (s1, i1) := TakeTurn(s, i, turns[0]);
    TurnLeavesFinished(s, i, turns[0], j);
    if i == j {
      RetiredGrows(s1, i1, turns[1..]);
    } else {
      UncutPassAnswersFinished(s1, i1, turns[1..], j - (|s.requests| - |s1.requests|));
    }
  }

  /** One turn answers its request if that is finished, and leaves later ones that are as they were. */
  lemma TurnLeavesFinished(s: State, i: nat, turn: Turn, j: nat)
    requires Consistent(s) && i <= Started(s.requests)
    requires AwakeBelow(s.events, s.requests, i)
    requires i <= j < |s.requests| && s.requests[j].status == Finished && TurnAllowed(s, i, turn)
    ensures var s1 := TakeTurn(s, i, turn).0;
            if i == j then RepliedLater(s.requests[j].serial, s.requests[j].outParams) in s1.retired
            else
              var k := j - (|s.requests| - |s1.requests|);
              0 <= k < |s1.requests| && s1.requests[k] == s.requests[j]
  {
    hide Consistent, AwakeBelow, RunCalls, CallsAllowed;
    if s.requests[i].status == Pending {
      StartKeeps(s, i);
      CallsKeep(StartRequest(s, i), turn.calls, i + 1);
      var s1 := RunCalls(StartRequest(s, i), turn.calls);
      assert s1.requests[j] == s.requests[j];
      hide OnlyCompletes;
      if turn.completed { Without(s1.requests, i, TakeTurn(s, i, turn).0.requests); }
    } else if s.requests[i].status == Finished {
      CallsKeep(s, turn.calls, i);
      var s1 := RunCalls(s, turn.calls);
      assert s1.requests[j] == s.requests[j];
      hide OnlyCompletes;
      var r := TakeTurn(s, i, turn).0;
      Without(s1.requests, i, r.requests);
      assert r.retired[|r.retired| - 1] == RepliedLater(s.requests[i].serial, s.requests[i].outParams);
    }
  }

  /** Requests behind the iterator that were with a handler before have serials below `d`. */
  ghost predicate StartedEarlier(requests: seq<Request>, i: nat, d: nat) {
    forall j :: i <= j < |requests| ==> (requests[j].status == Pending <==> requests[j].serial >= d)
  }

  lemma CompletingStartsNothing(before: seq<Request>, after: seq<Request>, i: nat, d: nat)
    requires OnlyCompletes(before, after) && StartedEarlier(before, i, d)
    ensures StartedEarlier(after, i, d)
  {
  }

  lemma RetiringStartsNothing(before: seq<Request>, i: nat, d: nat)
    requires i < |before| && StartedEarlier(before, i + 1, d)
    ensures StartedEarlier(before[..i] + before[i + 1..], i, d)
  {
    Without(before, i, before[..i] + before[i + 1..]);
  }

  /** One turn answers at most one request: its own, later exactly if it was started earlier. */
  lemma TurnAnswers(s: State, i: nat, turn: Turn, d: nat)
    requires Consistent(s) && i < |s.requests| && i <= Started(s.requests)
    requires AwakeBelow(s.events, s.requests, i) && TurnAllowed(s, i, turn)
    requires StartedEarlier(s.requests, i, d)
    ensures var (r, i1) := TakeTurn(s, i, turn);
            && StartedEarlier(r.requests, i1, d)
            && (r.retired == s.retired ||
                exists how :: r.retired == s.retired + [how] && (how.RepliedLater? <==> how.serial < d))
  {
    hide Consistent, AwakeBelow;
    var request, r := s.requests[i], TakeTurn(s, i, turn).0;
    assert StartedEarlier(s.requests, i + 1, d) && (request.status == Pending <==> request.serial >= d);
    if request.status == Pending {
      var s0 := StartRequest(s, i);
      assert StartedEarlier(s0.requests, i + 1, d);
      hide StartedEarlier;
      StartKeeps(s, i);
      CallsKeep(s0, turn.calls, i + 1);
      var s1 := RunCalls(s0, turn.calls);
      CompletingStartsNothing(s0.requests, s1.requests, i + 1, d);
      if turn.completed {
        RetiringStartsNothing(s1.requests, i, d);
        assert r.retired == s.retired + [RepliedAtOnce(request.serial)];
      }
    } else if request.status == Finished {
      hide StartedEarlier;
      CallsKeep(s, turn.calls, i);
      var s1 := RunCalls(s, turn.calls);
      CompletingStartsNothing(s.requests, s1.requests, i + 1, d);
      RetiringStartsNothing(s1.requests, i, d);
      assert r.retired == s.retired + [RepliedLater(request.serial, request.outParams)];
    }
  }

  lemma {:induction false} PassAnswers(s: State, i: nat, turns: seq<Turn>, d: nat, k: nat)
    requires Consistent(s) && i <= Started(s.requests)
    requires AwakeBelow(s.events, s.requests, i) && PassAllowed(s, i, turns)
    requires StartedEarlier(s.requests, i, d) && |s.retired| <= k < |Pass(s, i, turns).retired|
    ensures var how := Pass(s, i, turns).retired[k]; how.RepliedLater? <==> how.serial < d
    decreases |turns|
  {
    hide Consistent, AwakeBelow, StartedEarlier;
    if i < |s.requests| {
      TurnKeeps(s, i, turns[0]);
      TurnAnswers(s, i, turns[0], d);
      var (s1, i1) := TakeTurn(s, i, turns[0]);
      if !(s1.requests != [] && turns[0].timeIsUp) {
        if k < |s1.retired| {
          RetiredGrows(s1, i1, turns[1..]);
          assert Pass(s, i, turns).retired[k] == s1.retired[k];
        } else {
          PassAnswers(s1, i1, turns[1..], d, k);
        }
      }
    }
  }

  lemma AnswersAreReported(s: State)
    requires Consistent(s)
    ensures forall k :: 0 <= k < |s.retired| && s.retired[k].RepliedLater? ==>
              Reported(s.completions, s.retired[k].serial, s.retired[k].outParams)
  {
    hide InOrder, Conserved, IdsDistinct, ListsEachOnce, CallersKnown, ParkedIds;
  }

  lemma OnlyPassesAnswer(s: State, input: Input)
    requires Allowed(s, input)
    ensures if input.NextEvent? && s.events[0].HandleRequests? then
              && PassAllowed(s.(events := s.events[1..]), 0, input.turns)
              && Step(s, input) == Pass(s.(events := s.events[1..]), 0, input.turns)
            else Step(s, input).retired == s.retired
  {
    hide PassAllowed, Pass;
  }

  /**
   How each request is answered, at every step of every run: one that was with its handler before the step gets what its
   completion reported, and any other is answered by the handler it was just given to.
   */
  lemma EveryAnswerIsDue(counter: Id, run: seq<Input>, s: State, input: Input, r: State, k: nat)
    requires Reachable(counter, run, s) && Allowed(s, input) && r == Step(s, input)
    requires |s.retired| <= k < |r.retired|
    ensures if r.retired[k].serial < |s.dispatched| then
              && r.retired[k].serial in r.completions
              && r.retired[k] == RepliedLater(r.retired[k].serial, r.completions[r.retired[k].serial])
            else r.retired[k] == RepliedAtOnce(r.retired[k].serial)
  {
    hide Consistent, Step, RunAllowed, Execute, PassAllowed;
    ReachableKeepsInvariant(counter, run, s);
    StepKeeps(s, input);
    AnswersAreReported(r);
    OnlyPassesAnswer(s, input);
    var popped := s.(events := s.events[1..]);
    PopKeeps(s);
    forall j | 0 <= j < |s.requests|
      ensures s.requests[j].status == Pending <==> s.requests[j].serial >= |s.dispatched|
    {
      PendingIsNew(s, j);
    }
    PassAnswers(popped, 0, input.turns, |s.dispatched|, k);
  }

  /** The requests that a handler can see are what their callers sent. */
  lemma HandlersSeeWhatCallersSent(counter: Id, run: seq<Input>, s: State, i: nat)
    requires Reachable(counter, run, s) && i < |s.requests|
    ensures s.requests[i].serial < |s.callers| && s.requests[i].origin == s.callers[s.requests[i].serial]
  {
    ReachableKeepsInvariant(counter, run, s);
    hide InOrder, Conserved, RepliesMatch, IdsDistinct, ListsEachOnce;
  }

  ghost predicate HasFreeId(s: State) {
    exists i: Id :: i != s.counter && i !in Used(s)
  }

  /** Which calls are accepted: those of a known process while there is a free id; and as what. */
  lemma CallsAreAccepted(s: State, pid: Option<int>, inParams: Params, callerPid: int, cryptoRequestId: Id)
    ensures var r := Step(s, ClientCalls(pid, inParams));
            && r.callers == (if pid.Some? && HasFreeId(s) then s.callers + [DBus(pid.value, inParams)] else s.callers)
            && r.requests == s.requests && (pid.None? ==> r == s)
    ensures var r := Step(s, CryptoCalls(callerPid, inParams, cryptoRequestId));
            && r.callers == (if HasFreeId(s) then s.callers + [SecretsCrypto(callerPid, inParams, cryptoRequestId)]
                             else s.callers)
            && r.requests == s.requests
  {
    AllocationIsExact(s.counter, Used(s));
  }

  // ---- conservation ---------------------------------------------------------------------------------

  ghost function ParkedSerials(s: State): (r: seq<nat>)
    requires OneEventEach(s)
    ensures |r| == |ParkedIds(s.events)|
    ensures forall i :: 0 <= i < |r| ==> r[i] == s.enqueuing[ParkedIds(s.events)[i]].serial
  {
    var ids := ParkedIds(s.events);
    seq(|ids|, i requires 0 <= i < |ids| => s.enqueuing[ids[i]].serial)
  }

  ghost function QueuedSerials(s: State): (r: seq<nat>)
    ensures |r| == |s.requests| && forall i :: 0 <= i < |r| ==> r[i] == s.requests[i].serial
  {
    seq(|s.requests|, i requires 0 <= i < |s.requests| => s.requests[i].serial)
  }

  ghost function RetiredSerials(s: State): (r: seq<nat>)
    ensures |r| == |s.retired| && forall i :: 0 <= i < |r| ==> r[i] == s.retired[i].serial
  {
    seq(|s.retired|, i requires 0 <= i < |s.retired| => s.retired[i].serial)
  }

  lemma {:induction false} DistinctCounts(q: seq<nat>, x: nat)
    requires Distinct(q)
    ensures multiset(q)[x] == if x in q then 1 else 0
    decreases |q|
  {
    if q != [] {
      assert q == [q[0]] + q[1..];
      DistinctCounts(q[1..], x);
    }
  }

  lemma {:induction false} DistinctSize(q: seq<nat>)
    requires Distinct(q)
    ensures |Members(q)| == |q|
    decreases |q|
  {
    if q == [] {
      assert Members(q) == {};
    } else {
      DistinctSize(q[1..]);
      assert Members(q) == Members(q[1..]) + {q[0]};
    }
  }

  /** n distinct numbers below n are all of them. */
  lemma Pigeonhole(q: seq<nat>, n: nat)
    requires Distinct(q) && |q| == n && forall i :: 0 <= i < n ==> q[i] < n
    ensures multiset(q) == multiset(UpTo(n))
  {
    DistinctSize(q);
    DistinctSize(UpTo(n));
    forall x | x in Members(q) ensures x in Members(UpTo(n)) { assert UpTo(n)[x] == x; }
    SubsetSize(Members(q), Members(UpTo(n)));
    forall x: nat ensures multiset(q)[x] == multiset(UpTo(n))[x] {
      DistinctCounts(q, x);
      DistinctCounts(UpTo(n), x);
      assert x in Members(q) <==> x in Members(UpTo(n));
    }
  }

  /** Serials below `d` = |dispatched| are started or retired; the others are numbered on, queue first. */
  ghost predicate Numbered(s: State, p: seq<nat>, q: seq<nat>, t: seq<nat>) {
    var k, d := Started(s.requests), |s.dispatched|;
    && (forall i :: 0 <= i < |p| ==> p[i] == d + (|q| - k) + i)
    && (forall i :: 0 <= i < k && i < |q| ==> q[i] < d)
    && (forall i :: k <= i < |q| ==> q[i] == d + (i - k))
    && (forall i :: 0 <= i < |t| ==> t[i] < d)
  }

  lemma PlacesAreNumbered(s: State)
    requires Invariant(s)
    ensures Numbered(s, ParkedSerials(s), QueuedSerials(s), RetiredSerials(s))
    ensures |ParkedSerials(s)| + |QueuedSerials(s)| + |RetiredSerials(s)| == |s.callers|
    ensures |s.dispatched| + (|QueuedSerials(s)| - Started(s.requests)) + |ParkedSerials(s)| == |s.callers|
    ensures Started(s.requests) <= |QueuedSerials(s)|
    ensures Distinct(QueuedSerials(s)[..Started(s.requests)] + RetiredSerials(s))
  {
  }

  lemma PlacesAreDistinct(s: State)
    requires Invariant(s)
    ensures Distinct(ParkedSerials(s) + QueuedSerials(s) + RetiredSerials(s))
    ensures forall x :: x in ParkedSerials(s) + QueuedSerials(s) + RetiredSerials(s) ==> x < |s.callers|
    ensures |ParkedSerials(s) + QueuedSerials(s) + RetiredSerials(s)| == |s.callers|
  {
    PlacesAreNumbered(s);
    NumberedIsDistinct(s, ParkedSerials(s), QueuedSerials(s), RetiredSerials(s));
    hide Invariant;
  }

  lemma NumberedIsDistinct(s: State, p: seq<nat>, q: seq<nat>, t: seq<nat>)
    requires Numbered(s, p, q, t) && Started(s.requests) <= |q| && Distinct(q[..Started(s.requests)] + t)
    ensures Distinct(p + q + t)
  {
    var k := Started(s.requests);
    var all, some := p + q + t, q[..k] + t;
    forall i, j | 0 <= i < j < |all| ensures all[i] != all[j] {
      if |p| <= i < |p| + k && j >= |p| + |q| {
        assert all[i] == some[i - |p|] && all[j] == some[k + (j - |p| - |q|)];
      } else if |p| <= i && j < |p| + k {
        assert all[i] == some[i - |p|] && all[j] == some[j - |p|];
      } else if i >= |p| + |q| {
        assert all[i] == some[k + (i - |p| - |q|)] && all[j] == some[k + (j - |p| - |q|)];
      }
    }
  }

  /**
   Conservation: every accepted request is in exactly one place (parked, queued or retired), exactly once.
   A retirement is one completion, one reply and one deletion.
   */
  lemma EveryRequestIsInOnePlace(counter: Id, run: seq<Input>, s: State)
    requires Reachable(counter, run, s)
    ensures OneEventEach(s)
    ensures multiset(ParkedSerials(s)) + multiset(QueuedSerials(s)) + multiset(RetiredSerials(s))
         == multiset(UpTo(|s.callers|))
  {
    ReachableKeepsInvariant(counter, run, s);
    PlacesAreDistinct(s);
    Pigeonhole(ParkedSerials(s) + QueuedSerials(s) + RetiredSerials(s), |s.callers|);
  }

  // ---- passes ---------------------------------------------------------------------------------------

  /** A pass that is not cut short by the timer leaves nothing Pending. */
  lemma {:induction false} UncutPassLeavesNothingPending(s: State, i: nat, turns: seq<Turn>)
    requires Consistent(s) && i <= Started(s.requests)
    requires AwakeBelow(s.events, s.requests, i) && PassAllowed(s, i, turns)
    requires forall j :: 0 <= j < |turns| ==> !turns[j].timeIsUp
    ensures forall j :: 0 <= j < |Pass(s, i, turns).requests| ==> Pass(s, i, turns).requests[j].status != Pending
    decreases |turns|
  {
    hide Consistent;
    if i < |s.requests| {
      TurnKeeps(s, i, turns[0]);
      var (s1, i1) := TakeTurn(s, i, turns[0]);
      UncutPassLeavesNothingPending(s1, i1, turns[1..]);
    }
  }

  /** The timer does cut a pass short: after the turn at which time is up, nothing more is given to a handler. */
  lemma {:induction false} TimerCutsPass(s: State, i: nat, turns: seq<Turn>, k: nat)
    requires i <= |s.requests| <= i + |turns| && k < |turns| && turns[k].timeIsUp
    ensures var r := Pass(s, i, turns);
            && |r.dispatched| <= |s.dispatched| + k + 1 && |r.retired| <= |s.retired| + k + 1
    decreases |turns|
  {
    if i < |s.requests| {
      var (s1, i1) := TakeTurn(s, i, turns[0]);
      CallsRetireNothing(s, turns[0].calls);
      CallsRetireNothing(StartRequest(s, i), turns[0].calls);
      if !(s1.requests != [] && turns[0].timeIsUp) && i1 < |s1.requests| {
        TimerCutsPass(s1, i1, turns[1..], k - 1);
      }
    }
  }
}
