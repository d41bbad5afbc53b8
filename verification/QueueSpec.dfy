/**
 The request queue as a step system (daemon/requestqueue.cpp).

 A state holds what the C++ object holds: the parked requests, the request list, the Qt events posted to
 the queue and not yet delivered, and the id counter, which is a function-local static shared by both
 queues of the daemon.  Beside them it keeps the history that the theorems speak of: who made each accepted
 request, in which order they were given to the pending handler, and how each one was retired.

 `Step` is deterministic; everything the environment decides (who calls, what a handler does while it runs,
 when the yield timer fires) is in its `Input`.
 */
module QueueSpec {
  import opened Basics

  const ID_COUNT: nat := 0x1_0000_0000_0000_0000

  /** A quint64 request id. */
  type Id = i: int | 0 <= i < ID_COUNT

  /** `++` on a quint64. */
  function Succ(i: Id): Id {
    if i == ID_COUNT - 1 then 0 else i + 1
  }

  type Params = seq<int>

  datatype Status = Pending | InProgress | Finished

  /** Who asked for what: a D-Bus peer that waits for a reply message, or the crypto side of the daemon. */
  datatype Origin =
    | DBus(pid: int, inParams: Params)
    | SecretsCrypto(pid: int, inParams: Params, cryptoRequestId: Id)

  datatype Request = Request(
    serial: nat, // the how-manieth accepted request this is
    id: Id,
    origin: Origin,
    hasMessage: bool,
    status: Status,
    outParams: Params)

  datatype Event = FinishEnqueue(id: Id) | HandleRequests

  /** How a request left the queue: the pending handler replied, or the finished handler sent `outParams`. */
  datatype Retirement = RepliedAtOnce(serial: nat) | RepliedLater(serial: nat, outParams: Params)

  datatype State = State(
    counter: Id,
    enqueuing: map<Id, Request>,
    requests: seq<Request>,
    events: seq<Event>,
    callers: seq<Origin>, // of the accepted requests, by serial
    dispatched: seq<nat>,
    retired: seq<Retirement>,
    completions: map<nat, Params>)

  function Init(counter: Id): State {
    State(counter, map[], [], [], [], [], [], map[])
  }

  function Ids(rs: seq<Request>): set<Id> {
    set i | 0 <= i < |rs| :: rs[i].id
  }

  function Used(s: State): set<Id> {
    s.enqueuing.Keys + Ids(s.requests)
  }

  // ---- id allocation --------------------------------------------------------------------------------

  /** How many increments lead from `from` to `to`. */
  function Gap(from: Id, to: Id): nat {
    if from <= to then to - from else ID_COUNT - from + to
  }

  /** The wrapping search: the first unused id from `candidate` on, giving up when it is back at `prev`. */
  function Probe(prev: Id, candidate: Id, used: set<Id>): Option<Id>
    decreases Gap(candidate, prev)
  {
    if candidate == prev then None
    else if candidate !in used then Some(candidate)
    else Probe(prev, Succ(candidate), used)
  }

  // ---- the operations -------------------------------------------------------------------------------

  function Post(s: State, e: Event): State {
    s.(events := s.events + [e])
  }

  /** enqueueRequest: the new state and the id given, `None` when the queue is full. */
  function Enqueue(s: State, origin: Origin): (r: (State, Option<Id>))
    ensures r.1.Some? ==> r.1.value in r.0.enqueuing
    ensures r.0.requests == s.requests
  {
    var counter := Succ(s.counter);
    match Probe(s.counter, counter, Used(s))
    case None => (s.(counter := counter), None)
    case Some(id) =>
      var request := Request(|s.callers|, id, origin, false, Pending, []);
      (Post(s.(counter := counter, enqueuing := s.enqueuing[id := request], callers := s.callers + [origin]),
            FinishEnqueue(id)),
       Some(id))
  }

  /** A D-Bus call: refused without the caller's pid, otherwise queued with its reply message attached last. */
  function Submit(s: State, pid: Option<int>, inParams: Params): State {
    if pid.None? then s
    else
      var (s1, id) := Enqueue(s, DBus(pid.value, inParams));
      if id.Some?
      then s1.(enqueuing := s1.enqueuing[id.value := s1.enqueuing[id.value].(hasMessage := true)])
      else s1
  }

  function SubmitForCrypto(s: State, pid: int, inParams: Params, cryptoRequestId: Id): State {
    Enqueue(s, SecretsCrypto(pid, inParams, cryptoRequestId)).0
  }

  function FinishEnqueueRequest(s: State, id: Id): State {
    if id !in s.enqueuing then s
    else Post(s.(enqueuing := s.enqueuing - {id}, requests := s.requests + [s.enqueuing[id]]), HandleRequests)
  }

  /** The first request with this id, or the length of the list. */
  function IndexOf(rs: seq<Request>, id: Id): (k: nat)
    ensures k <= |rs|
    ensures forall j :: 0 <= j < k ==> rs[j].id != id
    ensures k < |rs| ==> rs[k].id == id
  {
    if rs == [] then 0 else if rs[0].id == id then 0 else 1 + IndexOf(rs[1..], id)
  }

  /** `serial` tells which request the caller means; the code only looks at the id. */
  function RequestFinished(s: State, id: Id, outParams: Params, serial: nat): (r: State)
    ensures |r.requests| == |s.requests|
  {
    var k := IndexOf(s.requests, id);
    if k == |s.requests| then s
    else
      var request := s.requests[k];
      Post(s.(requests := s.requests[k := request.(status := Finished, outParams := outParams)],
              completions := s.completions[serial := outParams]),
           HandleRequests)
  }

  /** What a handler may do to this queue while it runs. */
  datatype Call =
    | Enqueues(pid: int, inParams: Params, cryptoRequestId: Id) // a sub-request of a crypto request
    | Completes(id: Id, outParams: Params, serial: nat)         // requestFinished
    | OtherQueueEnqueues                                        // moves the shared counter only

  function RunCall(s: State, call: Call): (r: State)
    ensures |r.requests| == |s.requests|
  {
    match call
    case Enqueues(pid, inParams, c) => SubmitForCrypto(s, pid, inParams, c)
    case Completes(id, outParams, serial) => RequestFinished(s, id, outParams, serial)
    case OtherQueueEnqueues => s.(counter := Succ(s.counter))
  }

  function RunCalls(s: State, calls: seq<Call>): (r: State)
    ensures |r.requests| == |s.requests|
    decreases |calls|
  {
    if calls == [] then s else RunCalls(RunCall(s, calls[0]), calls[1..])
  }

  /** One turn of the dispatch loop: what the handler does, whether it completes, whether time is up after. */
  datatype Turn = Turn(calls: seq<Call>, completed: bool, timeIsUp: bool)

  function Retire(s: State, i: nat, how: Retirement): State
    requires i < |s.requests|
  {
    s.(requests := s.requests[..i] + s.requests[i + 1..], retired := s.retired + [how])
  }

  function StartRequest(s: State, i: nat): State
    requires i < |s.requests|
  {
    s.(requests := s.requests[i := s.requests[i].(status := InProgress)],
       dispatched := s.dispatched + [s.requests[i].serial])
  }

  /** The state after one turn, and the index the iterator is left at. */
  function TakeTurn(s: State, i: nat, turn: Turn): (r: (State, nat))
    requires i < |s.requests|
    ensures i <= r.1 <= |r.0.requests|
    ensures |r.0.requests| - r.1 == |s.requests| - i - 1
  {
    var request := s.requests[i];
    match request.status
    case InProgress => (s, i + 1)
    case Pending =>
      var s1 := RunCalls(StartRequest(s, i), turn.calls);
      if turn.completed then (Retire(s1, i, RepliedAtOnce(request.serial)), i) else (s1, i + 1)
    case Finished =>
      var s1 := RunCalls(s, turn.calls);
      if turn.completed then (Retire(s1, i, RepliedLater(request.serial, request.outParams)), i) else (s1, i + 1)
  }

  /** handleRequests from index `i` on, one turn an iteration. */
  function Pass(s: State, i: nat, turns: seq<Turn>): State
    requires i <= |s.requests| <= i + |turns|
    decreases |turns|
  {
    if i == |s.requests| then s
    else
      var (s1, i1) := TakeTurn(s, i, turns[0]);
      if s1.requests != [] && turns[0].timeIsUp then Post(s1, HandleRequests)
      else Pass(s1, i1, turns[1..])
  }

  // ---- runs -----------------------------------------------------------------------------------------

  datatype Input =
    | ClientCalls(pid: Option<int>, inParams: Params)
    | CryptoCalls(callerPid: int, inParams: Params, cryptoRequestId: Id)
    | OtherQueue
    | Completion(id: Id, outParams: Params, serial: nat)
    | NextEvent(turns: seq<Turn>)

  /** A completion is for the request that has the id, and that one is being worked on; or its id is not in the list. */
  ghost predicate CompletionAllowed(s: State, id: Id, serial: nat) {
    forall i :: 0 <= i < |s.requests| && s.requests[i].id == id ==>
      s.requests[i].status == InProgress && s.requests[i].serial == serial
  }

  ghost predicate CallsAllowed(s: State, calls: seq<Call>)
    decreases |calls|
  {
    calls != [] ==>
      && (calls[0].Completes? ==> CompletionAllowed(s, calls[0].id, calls[0].serial))
      && CallsAllowed(RunCall(s, calls[0]), calls[1..])
  }

  /** The handlers' side of the bargain: calls are allowed, and a finished handler always completes. */
  ghost predicate TurnAllowed(s: State, i: nat, turn: Turn)
    requires i < |s.requests|
  {
    match s.requests[i].status
    case InProgress => true
    case Pending => CallsAllowed(StartRequest(s, i), turn.calls)
    case Finished => turn.completed && CallsAllowed(s, turn.calls)
  }

  ghost predicate PassAllowed(s: State, i: nat, turns: seq<Turn>)
    decreases |turns|
  {
    && i <= |s.requests| <= i + |turns|
    && (i < |s.requests| ==>
          && TurnAllowed(s, i, turns[0])
          && PassAllowed(TakeTurn(s, i, turns[0]).0, TakeTurn(s, i, turns[0]).1, turns[1..]))
  }

  /** What the event loop can do at all: an event is there, and there are turns enough for a pass. */
  ghost predicate Possible(s: State, input: Input) {
    input.NextEvent? ==> s.events != [] && (s.events[0].HandleRequests? ==> |s.requests| <= |input.turns|)
  }

  ghost predicate Allowed(s: State, input: Input)
    ensures Allowed(s, input) ==> Possible(s, input)
  {
    match input
    case Completion(id, _, serial) => CompletionAllowed(s, id, serial)
    case NextEvent(turns) =>
      && s.events != []
      && (s.events[0].HandleRequests? ==> PassAllowed(s.(events := s.events[1..]), 0, turns))
    case _ => true
  }

  ghost function Step(s: State, input: Input): State
    requires Possible(s, input)
  {
    match input
    case ClientCalls(pid, inParams) => Submit(s, pid, inParams)
    case CryptoCalls(pid, inParams, c) => SubmitForCrypto(s, pid, inParams, c)
    case OtherQueue => s.(counter := Succ(s.counter))
    case Completion(id, outParams, serial) => RequestFinished(s, id, outParams, serial)
    case NextEvent(turns) =>
      var popped := s.(events := s.events[1..]);
      match s.events[0]
      case FinishEnqueue(id) => FinishEnqueueRequest(popped, id)
      case HandleRequests => Pass(popped, 0, turns)
  }

  ghost predicate RunPossible(s: State, run: seq<Input>)
    decreases |run|
  {
    run != [] ==> Possible(s, run[0]) && RunPossible(Step(s, run[0]), run[1..])
  }

  ghost predicate RunAllowed(s: State, run: seq<Input>)
    ensures RunAllowed(s, run) ==> RunPossible(s, run)
    decreases |run|
  {
    run != [] ==> Allowed(s, run[0]) && RunAllowed(Step(s, run[0]), run[1..])
  }

  ghost function Execute(s: State, run: seq<Input>): State
    requires RunPossible(s, run)
    decreases |run|
  {
    if run == [] then s else Execute(Step(s, run[0]), run[1..])
  }
}
