/**
 What every step of the request queue keeps, and what that says about whole runs
 (daemon/requestqueue.cpp:52-274).
 */
module QueueInvariant {
  import opened Basics
  import opened QueueSpec

  // ---- id allocation --------------------------------------------------------------------------------

  /**
   The search gives the first unused id after `prev`; it gives up exactly when every other id is taken.
   */
  lemma {:induction false} ProbeIsFirstFree(prev: Id, candidate: Id, used: set<Id>)
    requires forall i: Id :: 0 < Gap(prev, i) < Gap(prev, candidate) ==> i in used
    requires candidate != prev || forall i: Id :: i != prev ==> i in used
    ensures Probe(prev, candidate, used).None? <==> forall i: Id :: i != prev ==> i in used
    ensures Probe(prev, candidate, used).Some? ==>
              var id := Probe(prev, candidate, used).value;
              && id != prev && id !in used
              && forall i: Id :: 0 < Gap(prev, i) < Gap(prev, id) ==> i in used
    decreases Gap(candidate, prev)
  {
    if candidate != prev && candidate in used {
      forall i: Id | 0 < Gap(prev, i) < Gap(prev, Succ(candidate)) ensures i in used {
        if Gap(prev, i) == Gap(prev, candidate) { assert i == candidate; }
      }
      if Succ(candidate) == prev {
        forall i: Id | i != prev ensures i in used {
          if i != candidate { assert 0 < Gap(prev, i) < Gap(prev, candidate); }
        }
      }
      ProbeIsFirstFree(prev, Succ(candidate), used);
    }
  }

  /** From the counter on: `Some` is an unused id, `None` means no other id is left. */
  lemma AllocationIsExact(prev: Id, used: set<Id>)
    ensures Probe(prev, Succ(prev), used).None? <==> forall i: Id :: i != prev ==> i in used
    ensures Probe(prev, Succ(prev), used).Some? ==> Probe(prev, Succ(prev), used).value !in used
  {
    ProbeIsFirstFree(prev, Succ(prev), used);
  }

  // ---- the invariant --------------------------------------------------------------------------------

  /** The ids of the finishEnqueueRequest events, in the order in which they will be delivered. */
  ghost function ParkedIds(events: seq<Event>): seq<Id>
    decreases |events|
  {
    if events == [] then []
    else (if events[0].FinishEnqueue? then [events[0].id] else []) + ParkedIds(events[1..])
  }

  lemma {:induction false} ParkedIdsAppend(es: seq<Event>, e: Event)
    ensures ParkedIds(es + [e]) == ParkedIds(es) + (if e.FinishEnqueue? then [e.id] else [])
    decreases |es|
  {
    if es != [] {
      assert (es + [e])[1..] == es[1..] + [e];
      ParkedIdsAppend(es[1..], e);
    } else {
      assert [e][1..] == [];
    }
  }

  /** How many requests at the front of the list have left the Pending state. */
  ghost function Started(rs: seq<Request>): (k: nat)
    ensures k <= |rs|
    ensures forall i :: 0 <= i < k ==> rs[i].status != Pending
    ensures k < |rs| ==> rs[k].status == Pending
    decreases |rs|
  {
    if rs == [] || rs[0].status == Pending then 0 else 1 + Started(rs[1..])
  }

  lemma StartedIs(rs: seq<Request>, k: nat)
    requires k <= |rs|
    requires forall i :: 0 <= i < k ==> rs[i].status != Pending
    requires k < |rs| ==> rs[k].status == Pending
    ensures Started(rs) == k
  {
    var started := Started(rs);
    assert started < |rs| ==> rs[started].status == Pending;
  }

  /** Live ids are distinct over both containers. */
  ghost predicate IdsDistinct(enqueuing: map<Id, Request>, requests: seq<Request>) {
    && (forall id :: id in enqueuing ==> enqueuing[id].id == id)
    && (forall i, j :: 0 <= i < j < |requests| ==> requests[i].id != requests[j].id)
    && (forall i :: 0 <= i < |requests| ==> requests[i].id !in enqueuing)
  }

  /** `ids` lists each parked request once. */
  ghost predicate ListsEachOnce(enqueuing: map<Id, Request>, ids: seq<Id>) {
    && (forall i :: 0 <= i < |ids| ==> ids[i] in enqueuing)
    && (forall i, j :: 0 <= i < j < |ids| ==> ids[i] != ids[j])
    && (forall id :: id in enqueuing ==> id in ids)
  }

  /** Each parked request has exactly one finishEnqueueRequest event on its way. */
  ghost predicate OneEventEach(s: State) {
    ListsEachOnce(s.enqueuing, ParkedIds(s.events))
  }

  /**
   The Pending requests are a suffix of the list.  Numbered through, the dispatched requests, then that
   suffix, then the parked requests are the accepted ones in their order.
   */
  ghost predicate InOrder(dispatched: seq<nat>, requests: seq<Request>, enqueuing: map<Id, Request>, ids: seq<Id>,
                          accepted: nat)
  {
    var k, d := Started(requests), |dispatched|;
    && (forall i :: 0 <= i < d ==> dispatched[i] == i)
    && (forall i :: k <= i < |requests| ==> requests[i].status == Pending && requests[i].serial == d + (i - k))
    && (forall i :: 0 <= i < |ids| ==>
          ids[i] in enqueuing && enqueuing[ids[i]].serial == d + (|requests| - k) + i)
    && accepted == d + (|requests| - k) + |ids|
  }

  ghost predicate ParkedArePending(enqueuing: map<Id, Request>) {
    forall id :: id in enqueuing ==> enqueuing[id].status == Pending
  }

  /** What was dispatched is still in the list or retired, and nothing is there twice. */
  ghost predicate Conserved(dispatched: seq<nat>, requests: seq<Request>, retired: seq<Retirement>) {
    && (forall i :: 0 <= i < Started(requests) ==> requests[i].serial < |dispatched|)
    && (forall i :: 0 <= i < |retired| ==> retired[i].serial < |dispatched|)
    && (forall i, j :: 0 <= i < j < |requests| ==> requests[i].serial != requests[j].serial)
    && (forall i, j :: 0 <= i < j < |retired| ==> retired[i].serial != retired[j].serial)
    && (forall i, j :: 0 <= i < |requests| && 0 <= j < |retired| ==> requests[i].serial != retired[j].serial)
    && Started(requests) + |retired| == |dispatched|
  }

  /** The request is what its caller sent, and a D-Bus caller can be answered. */
  ghost predicate FromCaller(request: Request, callers: seq<Origin>) {
    && request.serial < |callers| && request.origin == callers[request.serial]
    && (request.origin.DBus? ==> request.hasMessage)
  }

  /** Every live request is from its caller. */
  ghost predicate CallersKnown(enqueuing: map<Id, Request>, requests: seq<Request>, callers: seq<Origin>) {
    && (forall id :: id in enqueuing ==> FromCaller(enqueuing[id], callers))
    && (forall i :: 0 <= i < |requests| ==> FromCaller(requests[i], callers))
  }

  ghost predicate Reported(completions: map<nat, Params>, serial: nat, outParams: Params) {
    serial in completions && completions[serial] == outParams
  }

  /** A finished request holds, and a late reply carried, what its own completion reported. */
  ghost predicate RepliesMatch(requests: seq<Request>, retired: seq<Retirement>, completions: map<nat, Params>) {
    && (forall i :: 0 <= i < |requests| && requests[i].status == Finished ==>
          Reported(completions, requests[i].serial, requests[i].outParams))
    && (forall i :: 0 <= i < |retired| && retired[i].RepliedLater? ==>
          Reported(completions, retired[i].serial, retired[i].outParams))
  }

  ghost predicate Consistent(s: State) {
    && IdsDistinct(s.enqueuing, s.requests)
    && ListsEachOnce(s.enqueuing, ParkedIds(s.events))
    && ParkedArePending(s.enqueuing)
    && InOrder(s.dispatched, s.requests, s.enqueuing, ParkedIds(s.events), |s.callers|)
    && Conserved(s.dispatched, s.requests, s.retired)
    && CallersKnown(s.enqueuing, s.requests, s.callers)
    && RepliesMatch(s.requests, s.retired, s.completions)
  }

  /** No request below `n` waits for the dispatch loop unless the loop is scheduled. */
  ghost predicate AwakeBelow(events: seq<Event>, requests: seq<Request>, n: nat)
    requires n <= |requests|
  {
    HandleRequests in events || forall i :: 0 <= i < n ==> requests[i].status == InProgress
  }

  ghost predicate Invariant(s: State) {
    Consistent(s) && AwakeBelow(s.events, s.requests, |s.requests|)
  }

  // ---- enqueuing ------------------------------------------------------------------------------------

  /** Parks `request` under an unused id, as enqueueRequest does once it has found one. */
  ghost function Park(s: State, counter: Id, request: Request): State {
    Post(s.(counter := counter, enqueuing := s.enqueuing[request.id := request], callers := s.callers + [request.origin]),
         FinishEnqueue(request.id))
  }

  lemma ParkKeepsOrder(dispatched: seq<nat>, requests: seq<Request>, enqueuing: map<Id, Request>, ids: seq<Id>,
                       accepted: nat, request: Request)
    requires ListsEachOnce(enqueuing, ids) && InOrder(dispatched, requests, enqueuing, ids, accepted)
    requires request.id !in enqueuing && request.serial == accepted
    ensures ListsEachOnce(enqueuing[request.id := request], ids + [request.id])
    ensures InOrder(dispatched, requests, enqueuing[request.id := request], ids + [request.id], accepted + 1)
  {
    hide Started;
  }

  lemma ParkKeepsIds(s: State, request: Request)
    requires IdsDistinct(s.enqueuing, s.requests) && CallersKnown(s.enqueuing, s.requests, s.callers)
    requires request.id !in Used(s) && FromCaller(request, s.callers + [request.origin])
    ensures IdsDistinct(s.enqueuing[request.id := request], s.requests)
    ensures CallersKnown(s.enqueuing[request.id := request], s.requests, s.callers + [request.origin])
  {
    assert forall i :: 0 <= i < |s.requests| ==> s.requests[i].id in Ids(s.requests);
  }

  lemma ParkKeeps(s: State, counter: Id, request: Request)
    requires Consistent(s)
    requires request.id !in Used(s) && request.serial == |s.callers| && request.status == Pending
    requires FromCaller(request, s.callers + [request.origin])
    ensures Consistent(Park(s, counter, request))
  {
    ParkKeepsOrder(s.dispatched, s.requests, s.enqueuing, ParkedIds(s.events), |s.callers|, request);
    ParkedIdsAppend(s.events, FinishEnqueue(request.id));
    ParkKeepsIds(s, request);
    hide ListsEachOnce, InOrder, Conserved, RepliesMatch, ParkedIds, IdsDistinct, CallersKnown;
  }

  lemma EnqueueKeeps(s: State, pid: int, inParams: Params, cryptoRequestId: Id)
    requires Consistent(s)
    ensures Consistent(SubmitForCrypto(s, pid, inParams, cryptoRequestId))
  {
    AllocationIsExact(s.counter, Used(s));
    match Probe(s.counter, Succ(s.counter), Used(s))
    case None =>
    case Some(id) =>
      hide Consistent;
      var origin := SecretsCrypto(pid, inParams, cryptoRequestId);
      ParkKeeps(s, Succ(s.counter), Request(|s.callers|, id, origin, false, Pending, []));
  }

  lemma SubmitIsPark(s: State, pid: int, inParams: Params, id: Id)
    requires Probe(s.counter, Succ(s.counter), Used(s)) == Some(id)
    ensures Submit(s, Some(pid), inParams) ==
            Park(s, Succ(s.counter), Request(|s.callers|, id, DBus(pid, inParams), true, Pending, []))
  {
    var request := Request(|s.callers|, id, DBus(pid, inParams), true, Pending, []);
    assert Submit(s, Some(pid), inParams).enqueuing == s.enqueuing[id := request];
  }

  lemma SubmitKeeps(s: State, pid: Option<int>, inParams: Params)
    requires Consistent(s)
    ensures Consistent(Submit(s, pid, inParams))
  {
    if pid.None? { return; }
    AllocationIsExact(s.counter, Used(s));
    match Probe(s.counter, Succ(s.counter), Used(s))
    case None =>
    case Some(id) =>
      hide Consistent;
      SubmitIsPark(s, pid.value, inParams, id);
      ParkKeeps(s, Succ(s.counter), Request(|s.callers|, id, DBus(pid.value, inParams), true, Pending, []));
  }

  /** Delivering the first finishEnqueueRequest event takes the first parked id off. */
  lemma PopParked(s: State)
    requires OneEventEach(s)
    requires s.events != [] && s.events[0].FinishEnqueue?
    ensures s.events[0].id in s.enqueuing
    ensures ParkedIds(s.events) == [s.events[0].id] + ParkedIds(s.events[1..] + [HandleRequests])
  {
    ParkedIdsAppend(s.events[1..], HandleRequests);
    assert ParkedIds(s.events)[0] == s.events[0].id;
  }

  lemma AppendKeepsList(enqueuing: map<Id, Request>, id: Id, rest: seq<Id>)
    requires ListsEachOnce(enqueuing, [id] + rest)
    ensures ListsEachOnce(enqueuing - {id}, rest)
  {
    var ids := [id] + rest;
    assert forall i :: 0 <= i < |rest| ==> rest[i] == ids[i + 1];
    assert ids[0] == id;
    forall k | k in enqueuing - {id} ensures k in rest { assert k in ids; }
  }

  lemma AppendKeepsOrder(dispatched: seq<nat>, requests: seq<Request>, enqueuing: map<Id, Request>, ids: seq<Id>,
                         accepted: nat)
    requires ids != [] && ids[0] in enqueuing
    requires ListsEachOnce(enqueuing, ids) && ParkedArePending(enqueuing)
    requires InOrder(dispatched, requests, enqueuing, ids, accepted)
    ensures InOrder(dispatched, requests + [enqueuing[ids[0]]], enqueuing - {ids[0]}, ids[1..], accepted)
    ensures Started(requests + [enqueuing[ids[0]]]) == Started(requests)
  {
    StartedIs(requests + [enqueuing[ids[0]]], Started(requests));
    hide Started;
  }

  lemma AppendKeepsIds(enqueuing: map<Id, Request>, requests: seq<Request>, callers: seq<Origin>, id: Id)
    requires IdsDistinct(enqueuing, requests) && CallersKnown(enqueuing, requests, callers) && id in enqueuing
    ensures IdsDistinct(enqueuing - {id}, requests + [enqueuing[id]])
    ensures CallersKnown(enqueuing - {id}, requests + [enqueuing[id]], callers)
  {
  }

  lemma AppendConserves(dispatched: seq<nat>, requests: seq<Request>, retired: seq<Retirement>,
                        enqueuing: map<Id, Request>, ids: seq<Id>, accepted: nat)
    requires Conserved(dispatched, requests, retired)
    requires InOrder(dispatched, requests, enqueuing, ids, accepted)
    requires ids != [] && ids[0] in enqueuing
    requires Started(requests + [enqueuing[ids[0]]]) == Started(requests)
    ensures Conserved(dispatched, requests + [enqueuing[ids[0]]], retired)
  {
    hide Started;
    var r := requests + [enqueuing[ids[0]]];
    forall i, j | 0 <= i < j < |r| ensures r[i].serial != r[j].serial {
      if j == |requests| && i < Started(requests) { assert r[i].serial < |dispatched|; }
    }
  }

  lemma AppendKeepsReplies(requests: seq<Request>, retired: seq<Retirement>, completions: map<nat, Params>,
                           request: Request)
    requires RepliesMatch(requests, retired, completions) && request.status == Pending
    ensures RepliesMatch(requests + [request], retired, completions)
  {
    hide Reported;
  }

  lemma FinishEnqueueKeeps(s: State)
    requires Consistent(s)
    requires s.events != [] && s.events[0].FinishEnqueue?
    ensures s.events[0].id in s.enqueuing
    ensures Invariant(FinishEnqueueRequest(s.(events := s.events[1..]), s.events[0].id))
  {
    hide InOrder, Conserved, ListsEachOnce, ParkedIds, IdsDistinct, CallersKnown, RepliesMatch, Started;
    PopParked(s);
    var id, ids := s.events[0].id, ParkedIds(s.events);
    var r := FinishEnqueueRequest(s.(events := s.events[1..]), id);
    assert ids[0] == id && ids[1..] == ParkedIds(r.events);
    AppendKeepsList(s.enqueuing, id, ids[1..]);
    AppendKeepsIds(s.enqueuing, s.requests, s.callers, id);
    AppendKeepsReplies(s.requests, s.retired, s.completions, s.enqueuing[id]);
    AppendKeepsOrder(s.dispatched, s.requests, s.enqueuing, ids, |s.callers|);
    AppendConserves(s.dispatched, s.requests, s.retired, s.enqueuing, ids, |s.callers|);
    assert r.events[|r.events| - 1] == HandleRequests;
  }

  // ---- completions ----------------------------------------------------------------------------------

  /** What calls made while a handler runs can do to the list: complete requests that are in progress. */
  ghost predicate OnlyCompletes(before: seq<Request>, after: seq<Request>) {
    && |before| == |after|
    && forall i :: 0 <= i < |before| ==>
         || after[i] == before[i]
         || (before[i].status == InProgress
             && after[i] == before[i].(status := Finished, outParams := after[i].outParams))
  }

  lemma OnlyCompletesKeepsStarted(before: seq<Request>, after: seq<Request>)
    requires OnlyCompletes(before, after)
    ensures Started(after) == Started(before)
  {
    var k := Started(before);
    assert forall i :: 0 <= i < k ==> before[i].status != Pending;
    StartedIs(after, k);
  }

  /** Order and conservation see only which requests are Pending, and the serials. */
  lemma CompletingKeepsOrder(s: State, requests: seq<Request>)
    requires InOrder(s.dispatched, s.requests, s.enqueuing, ParkedIds(s.events), |s.callers|)
    requires Conserved(s.dispatched, s.requests, s.retired) && OnlyCompletes(s.requests, requests)
    ensures InOrder(s.dispatched, requests, s.enqueuing, ParkedIds(s.events), |s.callers|)
    ensures Conserved(s.dispatched, requests, s.retired)
  {
    OnlyCompletesKeepsStarted(s.requests, requests);
    hide Started, ParkedIds;
    assert forall i :: 0 <= i < |requests| ==> requests[i].serial == s.requests[i].serial;
  }

  /** Serials are used once, so one completion does not touch another request's reply. */
  lemma RequestFinishedKeepsReplies(s: State, id: Id, outParams: Params, serial: nat)
    requires Conserved(s.dispatched, s.requests, s.retired) && CompletionAllowed(s, id, serial)
    requires RepliesMatch(s.requests, s.retired, s.completions)
    ensures var r := RequestFinished(s, id, outParams, serial); RepliesMatch(r.requests, r.retired, r.completions)
  {
    hide Started;
  }

  lemma RequestFinishedChangesOne(s: State, id: Id, outParams: Params, serial: nat)
    requires CompletionAllowed(s, id, serial)
    ensures OnlyCompletes(s.requests, RequestFinished(s, id, outParams, serial).requests)
  {
  }

  lemma OnlyCompletesKeepsIds(enqueuing: map<Id, Request>, before: seq<Request>, after: seq<Request>, callers: seq<Origin>)
    requires OnlyCompletes(before, after)
    requires IdsDistinct(enqueuing, before) && CallersKnown(enqueuing, before, callers)
    ensures IdsDistinct(enqueuing, after) && CallersKnown(enqueuing, after, callers)
  {
  }

  lemma RequestFinishedKeeps(s: State, id: Id, outParams: Params, serial: nat, n: nat)
    requires Consistent(s) && CompletionAllowed(s, id, serial)
    requires n <= |s.requests| && AwakeBelow(s.events, s.requests, n)
    ensures var r := RequestFinished(s, id, outParams, serial);
            Consistent(r) && OnlyCompletes(s.requests, r.requests) && AwakeBelow(r.events, r.requests, n)
  {
    RequestFinishedChangesOne(s, id, outParams, serial);
    if IndexOf(s.requests, id) < |s.requests| {
      var r := RequestFinished(s, id, outParams, serial);
      ParkedIdsAppend(s.events, HandleRequests);
      CompletingKeepsOrder(s, r.requests);
      RequestFinishedKeepsReplies(s, id, outParams, serial);
      OnlyCompletesKeepsIds(s.enqueuing, s.requests, r.requests, s.callers);
      hide InOrder, Conserved, RepliesMatch, ParkedIds, ListsEachOnce, IdsDistinct, CallersKnown, OnlyCompletes;
      assert r.events[|r.events| - 1] == HandleRequests;
    }
  }

  lemma CallKeeps(s: State, call: Call, n: nat)
    requires Consistent(s) && (call.Completes? ==> CompletionAllowed(s, call.id, call.serial))
    requires n <= |s.requests| && AwakeBelow(s.events, s.requests, n)
    ensures var r := RunCall(s, call);
            && Consistent(r) && OnlyCompletes(s.requests, r.requests) && AwakeBelow(r.events, r.requests, n)
            && r.retired == s.retired && r.dispatched == s.dispatched
  {
    hide InOrder, Conserved, RepliesMatch, ParkedIds, ListsEachOnce, IdsDistinct, CallersKnown;
    match call
    case Enqueues(pid, inParams, c) => EnqueueKeeps(s, pid, inParams, c);
    case Completes(id, outParams, serial) => RequestFinishedKeeps(s, id, outParams, serial, n);
    case OtherQueueEnqueues =>
  }

  lemma {:induction false} CallsKeep(s: State, calls: seq<Call>, n: nat)
    requires Consistent(s) && CallsAllowed(s, calls)
    requires n <= |s.requests| && AwakeBelow(s.events, s.requests, n)
    ensures var r := RunCalls(s, calls);
            Consistent(r) && OnlyCompletes(s.requests, r.requests) && AwakeBelow(r.events, r.requests, n)
    ensures RunCalls(s, calls).retired == s.retired && RunCalls(s, calls).dispatched == s.dispatched
    decreases |calls|
  {
    hide Consistent, AwakeBelow;
    if calls != [] {
      CallKeeps(s, calls[0], n);
      CallsKeep(RunCall(s, calls[0]), calls[1..], n);
    }
  }

  // ---- the dispatch loop ----------------------------------------------------------------------------

  lemma StartKeepsOrder(s: State, i: nat)
    requires InOrder(s.dispatched, s.requests, s.enqueuing, ParkedIds(s.events), |s.callers|)
    requires i < |s.requests| && i == Started(s.requests)
    ensures var r := StartRequest(s, i);
            && InOrder(r.dispatched, r.requests, r.enqueuing, ParkedIds(r.events), |r.callers|)
            && Started(r.requests) == i + 1 && s.requests[i].serial == |s.dispatched|
  {
    StartedIs(StartRequest(s, i).requests, i + 1);
    hide Started, ParkedIds;
  }

  lemma StartConserves(s: State, i: nat)
    requires Conserved(s.dispatched, s.requests, s.retired)
    requires i < |s.requests| && i == Started(s.requests) && s.requests[i].serial == |s.dispatched|
    requires Started(StartRequest(s, i).requests) == i + 1
    ensures var r := StartRequest(s, i); Conserved(r.dispatched, r.requests, r.retired)
  {
    var r := StartRequest(s, i);
    hide Started;
    assert forall j :: 0 <= j < |s.requests| ==> r.requests[j].serial == s.requests[j].serial;
  }

  lemma StartKeepsIds(s: State, i: nat)
    requires IdsDistinct(s.enqueuing, s.requests) && CallersKnown(s.enqueuing, s.requests, s.callers)
    requires RepliesMatch(s.requests, s.retired, s.completions) && i < |s.requests|
    ensures var r := StartRequest(s, i);
            && IdsDistinct(r.enqueuing, r.requests) && CallersKnown(r.enqueuing, r.requests, r.callers)
            && RepliesMatch(r.requests, r.retired, r.completions)
  {
    hide Reported;
  }

  lemma StartKeeps(s: State, i: nat)
    requires Consistent(s) && i < |s.requests| && i == Started(s.requests)
    requires AwakeBelow(s.events, s.requests, i)
    ensures var r := StartRequest(s, i);
            Consistent(r) && AwakeBelow(r.events, r.requests, i + 1) && Started(r.requests) == i + 1
  {
    StartKeepsOrder(s, i);
    StartConserves(s, i);
    StartKeepsIds(s, i);
    hide InOrder, Conserved, Started, ParkedIds, ListsEachOnce, IdsDistinct, CallersKnown, RepliesMatch;
  }

  /** The list without entry `i`. */
  lemma Without<T>(q: seq<T>, i: nat, r: seq<T>)
    requires i < |q| && r == q[..i] + q[i + 1..]
    ensures |r| == |q| - 1
    ensures forall j :: 0 <= j < i ==> r[j] == q[j]
    ensures forall j :: i <= j < |r| ==> r[j] == q[j + 1]
  {
  }

  lemma RetireKeepsOrder(s: State, i: nat, how: Retirement)
    requires InOrder(s.dispatched, s.requests, s.enqueuing, ParkedIds(s.events), |s.callers|)
    requires i < Started(s.requests)
    ensures var r := Retire(s, i, how);
            && InOrder(r.dispatched, r.requests, r.enqueuing, ParkedIds(r.events), |r.callers|)
            && Started(r.requests) == Started(s.requests) - 1
  {
    var r := Retire(s, i, how);
    Without(s.requests, i, r.requests);
    StartedIs(r.requests, Started(s.requests) - 1);
    hide Started, ParkedIds;
  }

  lemma RetireConserves(s: State, i: nat, how: Retirement)
    requires Conserved(s.dispatched, s.requests, s.retired)
    requires i < Started(s.requests) && Started(Retire(s, i, how).requests) == Started(s.requests) - 1
    requires how.serial == s.requests[i].serial
    ensures var r := Retire(s, i, how); Conserved(r.dispatched, r.requests, r.retired)
  {
    hide Started;
    Without(s.requests, i, Retire(s, i, how).requests);
  }

  lemma RetireKeepsIds(s: State, i: nat, how: Retirement)
    requires IdsDistinct(s.enqueuing, s.requests) && CallersKnown(s.enqueuing, s.requests, s.callers)
    requires RepliesMatch(s.requests, s.retired, s.completions) && i < |s.requests|
    requires how.serial == s.requests[i].serial
    requires how.RepliedLater? ==> s.requests[i].status == Finished && how.outParams == s.requests[i].outParams
    ensures var r := Retire(s, i, how);
            && IdsDistinct(r.enqueuing, r.requests) && CallersKnown(r.enqueuing, r.requests, r.callers)
            && RepliesMatch(r.requests, r.retired, r.completions)
  {
    hide Reported, FromCaller;
    Without(s.requests, i, Retire(s, i, how).requests);
  }

  lemma RetireKeeps(s: State, i: nat, how: Retirement)
    requires Consistent(s) && i < Started(s.requests)
    requires how.serial == s.requests[i].serial
    requires how.RepliedLater? ==> s.requests[i].status == Finished && how.outParams == s.requests[i].outParams
    requires AwakeBelow(s.events, s.requests, i)
    ensures var r := Retire(s, i, how);
            && Consistent(r) && AwakeBelow(r.events, r.requests, i)
            && Started(r.requests) == Started(s.requests) - 1
  {
    RetireKeepsOrder(s, i, how);
    RetireConserves(s, i, how);
    RetireKeepsIds(s, i, how);
    hide InOrder, Conserved, Started, ParkedIds, ListsEachOnce, IdsDistinct, CallersKnown, RepliesMatch;
    Without(s.requests, i, Retire(s, i, how).requests);
  }

  /** One turn keeps everything, and leaves nothing asleep behind the iterator. */
  lemma TurnKeeps(s: State, i: nat, turn: Turn)
    requires Consistent(s) && i < |s.requests| && i <= Started(s.requests)
    requires AwakeBelow(s.events, s.requests, i) && TurnAllowed(s, i, turn)
    ensures var (r, i1) := TakeTurn(s, i, turn);
            Consistent(r) && i1 <= Started(r.requests) && AwakeBelow(r.events, r.requests, i1)
  {
    hide Consistent;
    var request := s.requests[i];
    match request.status {
      case InProgress =>
      case Pending =>
        var s0 := StartRequest(s, i);
        StartKeeps(s, i);
        CallsKeep(s0, turn.calls, i + 1);
        var s1 := RunCalls(s0, turn.calls);
        OnlyCompletesKeepsStarted(s0.requests, s1.requests);
        if turn.completed { RetireKeeps(s1, i, RepliedAtOnce(request.serial)); }
      case Finished =>
        CallsKeep(s, turn.calls, i);
        var s1 := RunCalls(s, turn.calls);
        assert s1.requests[i] == request;
        OnlyCompletesKeepsStarted(s.requests, s1.requests);
        RetireKeeps(s1, i, RepliedLater(request.serial, request.outParams));
    }
  }

  lemma PostKeeps(s: State)
    requires Consistent(s)
    ensures Invariant(Post(s, HandleRequests))
  {
    ParkedIdsAppend(s.events, HandleRequests);
    hide InOrder, Conserved, RepliesMatch, ParkedIds, ListsEachOnce, IdsDistinct, CallersKnown;
    var r := Post(s, HandleRequests);
    assert ParkedIds(r.events) == ParkedIds(s.events);
    assert r.events[|r.events| - 1] == HandleRequests;
  }

  lemma PopKeeps(s: State)
    requires Consistent(s) && s.events != [] && s.events[0].HandleRequests?
    ensures Consistent(s.(events := s.events[1..]))
  {
    assert ParkedIds(s.events) == ParkedIds(s.events[1..]);
    hide InOrder, Conserved, RepliesMatch, ParkedIds, ListsEachOnce, IdsDistinct, CallersKnown;
  }

  lemma {:induction false} PassKeeps(s: State, i: nat, turns: seq<Turn>)
    requires Consistent(s) && i <= Started(s.requests)
    requires AwakeBelow(s.events, s.requests, i) && PassAllowed(s, i, turns)
    ensures Invariant(Pass(s, i, turns))
    decreases |turns|
  {
    hide Consistent;
    if i < |s.requests| {
      TurnKeeps(s, i, turns[0]);
      var (s1, i1) := TakeTurn(s, i, turns[0]);
      if s1.requests != [] && turns[0].timeIsUp {
        PostKeeps(s1);
      } else {
        PassKeeps(s1, i1, turns[1..]);
      }
    }
  }

  // ---- runs -----------------------------------------------------------------------------------------

  lemma EventKeeps(s: State, turns: seq<Turn>)
    requires Invariant(s) && Allowed(s, NextEvent(turns))
    ensures Invariant(Step(s, NextEvent(turns)))
  {
    hide Consistent;
    if s.events[0].FinishEnqueue? {
      FinishEnqueueKeeps(s);
    } else {
      PopKeeps(s);
      PassKeeps(s.(events := s.events[1..]), 0, turns);
    }
  }

  lemma CounterIsFree(s: State, counter: Id)
    requires Consistent(s)
    ensures Consistent(s.(counter := counter))
  {
    hide InOrder, Conserved, RepliesMatch, ParkedIds, ListsEachOnce, IdsDistinct, CallersKnown;
  }

  lemma StepKeeps(s: State, input: Input)
    requires Invariant(s) && Allowed(s, input)
    ensures Invariant(Step(s, input))
  {
    hide Consistent;
    match input {
      case ClientCalls(pid, inParams) => SubmitKeeps(s, pid, inParams);
      case CryptoCalls(pid, inParams, c) => EnqueueKeeps(s, pid, inParams, c);
      case OtherQueue => CounterIsFree(s, Succ(s.counter));
      case Completion(id, outParams, serial) => RequestFinishedKeeps(s, id, outParams, serial, |s.requests|);
      case NextEvent(turns) => EventKeeps(s, turns);
    }
  }

  lemma {:induction false} RunKeeps(s: State, run: seq<Input>)
    requires Invariant(s) && RunAllowed(s, run)
    ensures Invariant(Execute(s, run))
    decreases |run|
  {
    hide Invariant;
    if run != [] {
      StepKeeps(s, run[0]);
      RunKeeps(Step(s, run[0]), run[1..]);
    }
  }
}
