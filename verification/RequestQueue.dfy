/**
 The request queue object (daemon/requestqueue.cpp): the same containers, loops and early exits as the C++
 class, each method proved to do what the step system of QueueSpec says.
 */
module RequestQueues {
  import opened Basics
  import opened QueueSpec
  import QueueInvariant
  import QueueTheorems

  /** The function-local static of enqueueRequest; both queues of the daemon share one. */
  class IdCounter {
    var value: Id

    constructor (value: Id)
      ensures this.value == value
    {
      this.value := value;
    }
  }

  class RequestQueue {
    const counter: IdCounter
    var enqueuing: map<Id, Request>
    var requests: seq<Request>
    var events: seq<Event>

    var callers: seq<Origin>
    var dispatched: seq<nat>
    var retired: seq<Retirement>
    var completions: map<nat, Params>

    ghost function Abs(): State
      reads this, counter
    {
      State(counter.value, enqueuing, requests, events, callers, dispatched, retired, completions)
    }

    constructor (counter: IdCounter)
      ensures this.counter == counter && Abs() == Init(counter.value)
    {
      this.counter := counter;
      enqueuing, requests, events := map[], [], [];
      callers, dispatched, retired, completions := [], [], [], map[];
    }

    /** The linear search over the list, run for each candidate id. */
    method IsTaken(id: Id) returns (found: bool)
      ensures found <==> id in Used(Abs())
    {
      found := false;
      if id in enqueuing {
        found := true;
      } else {
        var it := 0;
        while it < |requests|
          invariant 0 <= it <= |requests|
          invariant !found && forall j :: 0 <= j < it ==> requests[j].id != id
        {
          if requests[it].id == id {
            found := true;
            return;
          }
          it := it + 1;
        }
      }
    }

    /**
     The wrapping search for a free id: it never probes more ids than there are in use, plus one, and gives
     up only when all 2^64 - 1 ids other than the previous counter value are taken.
     */
    method FindFreeId(prevId: Id) returns (found: bool, nextFreeId: Id, ghost probes: nat)
      ensures !found ==> Probe(prevId, Succ(prevId), Used(Abs())) == Some(nextFreeId)
      ensures found ==> Probe(prevId, Succ(prevId), Used(Abs())) == None
      ensures probes <= |Used(Abs())| + 1
      ensures found ==> |Used(Abs())| >= ID_COUNT - 1
    {
      ghost var used := Used(Abs());
      nextFreeId, found, probes := Succ(prevId), false, 0;
      ghost var seen: set<Id> := {};
      while nextFreeId != prevId
        invariant Probe(prevId, Succ(prevId), used) == Probe(prevId, nextFreeId, used)
        invariant probes == Gap(Succ(prevId), nextFreeId)
        invariant |seen| == probes && seen <= used
        invariant forall i :: i in seen ==> Gap(prevId, i) <= probes && i != prevId
        invariant nextFreeId == prevId ==> found
        decreases Gap(nextFreeId, prevId)
      {
        found := IsTaken(nextFreeId);
        if !found {
          probes := probes + 1;
          SubsetSize(seen, used);
          return;
        }
        assert Gap(prevId, nextFreeId) == probes + 1;
        seen := seen + {nextFreeId};
        nextFreeId, probes := Succ(nextFreeId), probes + 1;
      }
      SubsetSize(seen, used);
    }

    /** Gives `request` an id, parks it and posts the event that will append it; `None` when the queue is full. */
    method EnqueueRequest(origin: Origin) returns (id: Option<Id>)
      modifies this, counter
      ensures Abs() == Enqueue(old(Abs()), origin).0 && id == Enqueue(old(Abs()), origin).1
    {
      var prevId := counter.value;
      counter.value := Succ(counter.value);
      var found, nextFreeId, _ := FindFreeId(prevId);
      if found {
        return None;
      }
      enqueuing := enqueuing[nextFreeId := Request(|callers|, nextFreeId, origin, false, Pending, [])];
      events := events + [FinishEnqueue(nextFreeId)];
      callers := callers + [origin];
      return Some(nextFreeId);
    }

    /** A D-Bus call from a peer whose pid may or may not be known. */
    method HandleClientRequest(pid: Option<int>, inParams: Params) returns (queued: bool)
      modifies this, counter
      ensures Abs() == Submit(old(Abs()), pid, inParams)
      ensures queued <==> pid.Some? && Enqueue(old(Abs()), DBus(pid.value, inParams)).1.Some?
    {
      if pid.None? {
        return false;
      }
      var id := EnqueueRequest(DBus(pid.value, inParams));
      if id.None? {
        return false;
      }
      enqueuing := enqueuing[id.value := enqueuing[id.value].(hasMessage := true)];
      return true;
    }

    /** A Secrets request that is part of a Crypto request. */
    method HandleCryptoRequest(pid: int, inParams: Params, cryptoRequestId: Id) returns (queued: bool)
      modifies this, counter
      ensures Abs() == SubmitForCrypto(old(Abs()), pid, inParams, cryptoRequestId)
      ensures queued <==> Enqueue(old(Abs()), SecretsCrypto(pid, inParams, cryptoRequestId)).1.Some?
    {
      var id := EnqueueRequest(SecretsCrypto(pid, inParams, cryptoRequestId));
      return id.Some?;
    }

    method FinishEnqueueing(id: Id)
      modifies this
      ensures Abs() == FinishEnqueueRequest(old(Abs()), id)
    {
      if id !in enqueuing {
        return;
      }
      var request := enqueuing[id];
      enqueuing := enqueuing - {id};
      requests := requests + [request];
      events := events + [HandleRequests];
    }

    method Finish(id: Id, outParams: Params, serial: nat)
      modifies this
      ensures Abs() == RequestFinished(old(Abs()), id, outParams, serial)
    {
      var it := 0;
      while it < |requests|
        invariant 0 <= it <= |requests|
        invariant forall j :: 0 <= j < it ==> requests[j].id != id
        invariant Abs() == old(Abs())
      {
        if requests[it].id == id {
          completions := completions[serial := outParams];
          requests := requests[it := requests[it].(status := Finished, outParams := outParams)];
          events := events + [HandleRequests];
          return;
        }
        it := it + 1;
      }
    }

    /** What the handler of one request does to the queue before it returns. */
    method RunHandler(calls: seq<Call>)
      modifies this, counter
      ensures Abs() == RunCalls(old(Abs()), calls)
    {
      for k := 0 to |calls|
        invariant RunCalls(old(Abs()), calls) == RunCalls(Abs(), calls[k..])
      {
        assert calls[k..][1..] == calls[k + 1..];
        match calls[k] {
          case Enqueues(pid, inParams, c) => var _ := HandleCryptoRequest(pid, inParams, c);
          case Completes(id, outParams, serial) => Finish(id, outParams, serial);
          case OtherQueueEnqueues => counter.value := Succ(counter.value);
        }
      }
    }

    /** The body of the dispatch loop; returns where the iterator is left. */
    method TakeOneTurn(it: nat, turn: Turn) returns (next: nat)
      requires it < |requests|
      modifies this, counter
      ensures (Abs(), next) == TakeTurn(old(Abs()), it, turn)
      // a request is answered once its handler completes: by the handler it is given to, or with what was reported
      ensures var request := old(requests)[it];
              retired == old(retired) + if request.status == InProgress || !turn.completed then []
                                        else if request.status == Pending then [RepliedAtOnce(request.serial)]
                                        else [RepliedLater(request.serial, request.outParams)]
      ensures dispatched == old(dispatched) + if old(requests)[it].status == Pending then [old(requests)[it].serial] else []
    {
      var request := requests[it];
      QueueTheorems.CallsRetireNothing(Abs(), turn.calls);
      QueueTheorems.CallsRetireNothing(StartRequest(Abs(), it), turn.calls);
      if request.status == Pending {
        requests := requests[it := request.(status := InProgress)];
        dispatched := dispatched + [request.serial];
        RunHandler(turn.calls);
        if turn.completed {
          requests := requests[..it] + requests[it + 1..];
          retired := retired + [RepliedAtOnce(request.serial)];
          return it;
        }
        return it + 1;
      } else if request.status == Finished {
        RunHandler(turn.calls);
        if turn.completed {
          requests := requests[..it] + requests[it + 1..];
          retired := retired + [RepliedLater(request.serial, request.outParams)];
          return it;
        }
        return it + 1;
      }
      return it + 1;
    }

    /** The dispatch loop, yielding to the event loop when time is up. */
    method HandleAll(turns: seq<Turn>)
      requires |requests| <= |turns|
      modifies this, counter
      ensures Abs() == Pass(old(Abs()), 0, turns)
    {
      var it, k := 0, 0;
      while it < |requests|
        invariant 0 <= it <= |requests| && 0 <= k <= |turns| && |requests| <= it + (|turns| - k)
        invariant Pass(old(Abs()), 0, turns) == Pass(Abs(), it, turns[k..])
        decreases |turns| - k
      {
        assert turns[k..][1..] == turns[k + 1..];
        it := TakeOneTurn(it, turns[k]);
        k := k + 1;
        if requests != [] && turns[k - 1].timeIsUp {
          events := events + [HandleRequests];
          return;
        }
      }
    }

    /** One iteration of the event loop for this queue. */
    method ProcessEvent(turns: seq<Turn>)
      requires Allowed(Abs(), NextEvent(turns))
      requires QueueInvariant.Invariant(Abs())
      modifies this, counter
      ensures Abs() == Step(old(Abs()), NextEvent(turns))
      ensures QueueInvariant.Invariant(Abs())
    {
      QueueInvariant.StepKeeps(Abs(), NextEvent(turns));
      var event := events[0];
      events := events[1..];
      match event {
        case FinishEnqueue(id) => FinishEnqueueing(id);
        case HandleRequests => HandleAll(turns);
      }
    }
  }
}
