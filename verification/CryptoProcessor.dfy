/**
 The crypto request processor (daemon/CryptoImpl/cryptorequestprocessor.cpp:397-1288, 1290-2389, 2515-3184): a request
 is parked while a Secrets sub-request runs, decoded when it completes, and continued in its next phase.

 The Secrets side answers each sub-request at once with Failed, or with Pending and at most one completion later; only
 the fetching of a stored key may also succeed at once.
 */
module CryptoProcessors {
  import opened Basics
  import opened CryptoRequests

  datatype Error = IncorrectPassphrase | InvalidKeyIdentifier | InvalidServiceProvider | InvalidStorageProvider
                 | StorageError | SerializationError | OtherError

  datatype Code = Succeeded | Pending | Failed(error: Error)

  /** One call of requestFinished. */
  datatype Reply = Reply(id: Id, code: Code, key: Option<Key>)

  /**
   A request that was started and not yet replied to, the collection key its pre-check gave, if it had one, and the plugin
   thread that works on it, if any.
   */
  datatype Live = Live(pid: int, request: Request, collectionKey: Option<Bytes>, job: Option<Job>)

  /** A call to the Secrets side, and its immediate answer. */
  datatype Asked = Asked(id: Id, request: SubRequest, answer: Code, key: Option<Key>)

  /**
   A live request is worked on by one job with nothing else to come; or it is parked, and then its list is the one that
   belongs to the sub-request outstanding for it, or nothing is outstanding.
   */
  ghost predicate EntryOk(id: Id, l: Live, p: Option<PendingRequest>, o: Option<SubRequest>) {
    if l.job.Some? then p == None && o == None && Works(l.request, l.pid, l.collectionKey, l.job.value)
    else
      && p.Some? && Header(id, l, p.value)
      && if o.Some? then Parked(l.request, l.pid, l.collectionKey, o.value, p.value.parameters)
         else AwaitsNobody(l.request, l.collectionKey, p.value.parameters)
  }

  ghost predicate Header(id: Id, l: Live, pr: PendingRequest) {
    pr.pid == l.pid && pr.id == id && pr.requestType == TypeOf(l.request)
  }

  function Get<T>(m: map<Id, T>, id: Id): Option<T> {
    if id in m then Some(m[id]) else None
  }

  type Lives = map<Id, Live>
  type Pendings = map<Id, PendingRequest>
  type Outstanding = map<Id, SubRequest>

  ghost predicate AllOk(live: Lives, pending: Pendings, outstanding: Outstanding) {
    && pending.Keys <= live.Keys && outstanding.Keys <= live.Keys
    && forall id :: id in live ==> EntryOk(id, live[id], Get(pending, id), Get(outstanding, id))
  }

  /** Between two phases of request `id`: no job, nothing parked; a sub-request may have been made. */
  ghost predicate AllOkBut(live: Lives, pending: Pendings, outstanding: Outstanding, id: Id) {
    id in live && id !in pending && AllOk(live - {id}, pending, outstanding - {id})
  }

  function Ids(replies: seq<Reply>): seq<Id> {
    seq(|replies|, i requires 0 <= i < |replies| => replies[i].id)
  }

  /** At most one reply was made, and it was for `id`. */
  ghost predicate AtMostOne(before: seq<Reply>, after: seq<Reply>, id: Id) {
    || after == before
    || (|after| == |before| + 1 && after[..|before|] == before && after[|before|].id == id)
  }

  /** Every request started is still live or was replied to, as often as it was started. */
  ghost predicate Conserved(started: multiset<Id>, replies: seq<Reply>, live: set<Id>) {
    started == multiset(Ids(replies)) + multiset(live)
  }

  lemma OneMoreReply(started: multiset<Id>, replies: seq<Reply>, live: set<Id>, r: Reply)
    requires Conserved(started, replies, live) && r.id in live
    ensures Conserved(started, replies + [r], live - {r.id})
  {
    assert Ids(replies + [r]) == Ids(replies) + [r.id];
    assert multiset(live) == multiset(live - {r.id}) + multiset{r.id};
  }

  lemma OneMoreStarted(started: multiset<Id>, replies: seq<Reply>, live: set<Id>, id: Id)
    requires Conserved(started, replies, live) && id !in live
    ensures Conserved(started + multiset{id}, replies, live + {id})
  {
    assert multiset(live + {id}) == multiset(live) + multiset{id};
  }

  lemma SameButOne<T>(m: map<Id, T>, id: Id, v: T)
    ensures m[id := v] - {id} == m - {id} && (m - {id}) - {id} == m - {id}
    ensures id !in m ==> m - {id} == m && m[id := v] - {id} == m
  {
  }

  lemma AddOk(live: Lives, pending: Pendings, outstanding: Outstanding, id: Id, l: Live)
    requires AllOk(live, pending, outstanding - {id}) && id !in live
    ensures AllOkBut(live[id := l], pending, outstanding, id)
  {
    hide EntryOk;
    assert live[id := l] - {id} == live;
  }

  lemma TakeOk(live: Lives, pending: Pendings, outstanding: Outstanding, id: Id, l: Live)
    requires AllOk(live, pending, outstanding) && id in live
    ensures AllOkBut(live[id := l], pending - {id}, outstanding - {id}, id)
    ensures (live[id := l]).Keys == live.Keys
    ensures EntryOk(id, live[id], Get(pending, id), Get(outstanding, id))
  {
    hide EntryOk;
    assert live[id := l] - {id} == live - {id} && (outstanding - {id}) - {id} == outstanding - {id};
    assert forall k :: k in live - {id} ==> Get(pending - {id}, k) == Get(pending, k);
    assert forall k :: k in live - {id} ==> Get(outstanding - {id}, k) == Get(outstanding, k);
  }

  lemma PutOk(live: Lives, pending: Pendings, outstanding: Outstanding, id: Id, l: Live, p: Option<PendingRequest>)
    requires AllOkBut(live, pending, outstanding, id) && EntryOk(id, l, p, Get(outstanding, id))
    ensures (live[id := l]).Keys == live.Keys
    ensures AllOk(live[id := l], if p.Some? then pending[id := p.value] else pending, outstanding)
  {
    hide EntryOk;
    var q := if p.Some? then pending[id := p.value] else pending;
    forall k | k in live[id := l] ensures EntryOk(k, (live[id := l])[k], Get(q, k), Get(outstanding, k)) {
      if k != id {
        assert k in live - {id} && Get(q, k) == Get(pending, k) && Get(outstanding - {id}, k) == Get(outstanding, k);
      }
    }
    assert forall k :: k in outstanding && k != id ==> k in outstanding - {id};
  }

  lemma DropOk(live: Lives, pending: Pendings, outstanding: Outstanding, id: Id)
    requires AllOkBut(live, pending, outstanding, id) && id !in outstanding
    ensures AllOk(live - {id}, pending, outstanding) && id in live
  {
    hide EntryOk;
    assert outstanding - {id} == outstanding;
  }

  // ---- decoding: each index is one takeFirst, so none is taken from an empty list ---------------------

  method DecodeUse(id: Id, pr: PendingRequest, ghost l: Live) returns (request: Request)
    requires Header(id, l, pr) && AwaitsUseCheck(l.request, pr.parameters)
    ensures request == l.request && UsesKey(request)
  {
    var p := pr.parameters;
    match pr.requestType {
      case SignRequest =>
        request := Sign(p[0].bytes, p[1].key, p[2].signaturePadding, p[3].digest, p[4].custom, p[5].text);
      case VerifyRequest =>
        request := Verify(p[0].bytes, p[1].bytes, p[2].key, p[3].signaturePadding, p[4].digest, p[5].custom, p[6].text);
      case EncryptRequest =>
        request := Encrypt(p[0].bytes, p[1].bytes, p[2].key, p[3].blockMode, p[4].encryptionPadding, p[5].bytes,
                           p[6].custom, p[7].text);
      case DecryptRequest =>
        request := Decrypt(p[0].bytes, p[1].bytes, p[2].key, p[3].blockMode, p[4].encryptionPadding, p[5].bytes,
                           p[6].bytes, p[7].custom, p[8].text);
      case InitializeCipherSessionRequest =>
        request := InitializeCipherSession(p[0].bytes, p[1].key, p[2].operation, p[3].blockMode, p[4].encryptionPadding,
                                           p[5].signaturePadding, p[6].digest, p[7].custom, p[8].text);
      case _ => assert false;
    }
  }

  method DecodeFetch(id: Id, pr: PendingRequest, key: Key, ghost l: Live, ghost identifier: Identifier)
    returns (request: Request)
    requires Header(id, l, pr) && AwaitsKey(l.request, l.pid, identifier, pr.parameters) && UsesKey(l.request)
    ensures request == WithKey(l.request, key) && UsesFor(l.request, request)
  {
    var p := pr.parameters;
    match pr.requestType {
      case SignRequest =>
        request := Sign(p[0].bytes, key, p[1].signaturePadding, p[2].digest, p[3].custom, p[4].text);
      case VerifyRequest =>
        request := Verify(p[0].bytes, p[1].bytes, key, p[2].signaturePadding, p[3].digest, p[4].custom, p[5].text);
      case EncryptRequest =>
        request := Encrypt(p[0].bytes, p[1].bytes, key, p[2].blockMode, p[3].encryptionPadding, p[4].bytes, p[5].custom,
                           p[6].text);
      case DecryptRequest =>
        request := Decrypt(p[0].bytes, p[1].bytes, key, p[2].blockMode, p[3].encryptionPadding, p[4].bytes, p[5].bytes,
                           p[6].custom, p[7].text);
      case InitializeCipherSessionRequest =>
        request := InitializeCipherSession(p[1].bytes, key, p[2].operation, p[3].blockMode, p[4].encryptionPadding,
                                           p[5].signaturePadding, p[6].digest, p[7].custom, p[8].text);
      case _ => assert false;
    }
  }

  /** The caller of a cipher session travels in the list: it is the one recorded with the request. */
  method DecodeFetchPid(id: Id, pr: PendingRequest, ghost l: Live, ghost identifier: Identifier) returns (pid: int)
    requires Header(id, l, pr) && AwaitsKey(l.request, l.pid, identifier, pr.parameters)
    ensures pid == l.pid
  {
    if pr.requestType == InitializeCipherSessionRequest {
      pid := pr.parameters[0].pid;
    } else {
      pid := pr.pid;
    }
  }

  method DecodePreCheck(id: Id, pr: PendingRequest, ghost l: Live) returns (request: Request)
    requires Header(id, l, pr) && AwaitsStoreCheck(l.request, pr.parameters)
    ensures request == l.request && (request.GenerateStoredKey? || request.ImportStoredKey?)
  {
    var p := pr.parameters;
    match pr.requestType {
      case GenerateStoredKeyRequest =>
        request := GenerateStoredKey(p[0].key, p[1].kpg, p[2].kdf, p[3].ui, p[4].custom, p[5].text);
      case ImportStoredKeyRequest =>
        request := ImportStoredKey(p[0].bytes, p[1].key, p[2].ui, p[3].custom, p[4].text);
      case _ => assert false;
    }
  }

  /** The collection key learned before the prompt is parked too; the interaction parameters of a generation are not. */
  method DecodeUserInput(id: Id, pr: PendingRequest, userInput: Bytes, ghost l: Live, ghost s: SubRequest)
    returns (request: Request, collectionKey: Bytes)
    requires Header(id, l, pr) && s.UserInput?
    requires AwaitsInput(l.request, l.collectionKey, s.purpose, s.identifier, s.ui, pr.parameters)
    ensures if l.request.GenerateStoredKey? then
              request == l.request.(ui := Ui(false, ""), kdf := l.request.kdf.(input := userInput))
            else (request.ImportKey? || request.ImportStoredKey?) && request == l.request
    ensures !request.ImportKey? ==> l.collectionKey == Some(collectionKey)
  {
    var p := pr.parameters;
    collectionKey := "";
    match pr.requestType {
      case GenerateStoredKeyRequest =>
        request := GenerateStoredKey(p[0].key, p[1].kpg, p[2].kdf.(input := userInput), Ui(false, ""), p[3].custom,
                                     p[4].text);
        collectionKey := p[5].bytes;
      case ImportKeyRequest =>
        request := ImportKey(p[0].bytes, p[1].ui, p[2].custom, p[3].text);
      case ImportStoredKeyRequest =>
        request := ImportStoredKey(p[0].bytes, p[1].key, p[2].ui, p[3].custom, p[4].text);
        collectionKey := p[5].bytes;
      case _ => assert false;
    }
  }

  class RequestProcessor {
    const cryptoPlugins: map<string, bool> // and whether they can store keys
    const storagePlugins: set<string>

    var pending: Pendings
    var replies: seq<Reply>
    var live: Lives
    var outstanding: Outstanding // what the Secrets side was asked and has not completed: see Ask, AskForKey, Complete
    ghost var started: multiset<Id>
    ghost var asked: seq<Asked> // all it was asked so far, by Ask and AskForKey

    ghost predicate Valid()
      reads this
    {
      AllOk(live, pending, outstanding) && Conserved(started, replies, live.Keys)
    }

    ghost predicate ValidBut(id: Id)
      reads this
    {
      AllOkBut(live, pending, outstanding, id) && Conserved(started, replies, live.Keys)
    }

    /** Parked, and nobody was asked anything: nothing will ever complete it. */
    predicate Stalled(id: Id)
      reads this
    {
      id in pending && id !in outstanding
    }

    ghost function Now(): Snapshot
      reads this
    {
      Snapshot(cryptoPlugins, storagePlugins, live, pending, outstanding, replies, asked)
    }

    constructor (cryptoPlugins: map<string, bool>, storagePlugins: set<string>)
      ensures Valid() && live == map[] && replies == [] && asked == []
      ensures this.cryptoPlugins == cryptoPlugins && this.storagePlugins == storagePlugins
    {
      this.cryptoPlugins, this.storagePlugins := cryptoPlugins, storagePlugins;
      pending, replies, live, outstanding, started, asked := map[], [], map[], map[], multiset{}, [];
    }

    /** Everything about other requests is as before. */
    twostate predicate OnlyTouches(id: Id)
      reads this
    {
      && pending - {id} == old(pending) - {id} && live - {id} == old(live) - {id}
      && outstanding - {id} == old(outstanding) - {id}
    }

    /** The Secrets side was asked one thing: `s`, for `id`. */
    twostate predicate Asks(id: Id, s: SubRequest)
      reads this
    {
      && |asked| == |old(asked)| + 1 && asked[..|old(asked)|] == old(asked)
      && asked[|old(asked)|].id == id && asked[|old(asked)|].request == s
    }

    /** What it answered at once to the last thing it was asked. */
    ghost function Answer(): Code
      requires asked != []
      reads this
    {
      asked[|asked| - 1].answer
    }

    /** The request is replied to, and that is its end. */
    twostate predicate Ends(id: Id, code: Code, key: Option<Key>)
      reads this
    {
      replies == old(replies) + [Reply(id, code, key)] && id !in live
    }

    /** The request goes on waiting for `s`. */
    twostate predicate Waits(id: Id, s: SubRequest)
      reads this
    {
      && id in live && id in old(live) && live[id] == old(live)[id].(job := None) && replies == old(replies)
      && id in pending && id in outstanding && outstanding[id] == s
    }

    /** The request goes on with this job. */
    twostate predicate GoesOn(id: Id, l: Live)
      reads this
    {
      id in live && live[id] == l && id !in pending && id !in outstanding && replies == old(replies)
    }

    // ---- the Secrets side ---------------------------------------------------------------------------

    /** A sub-request fails at once, or is taken and completed later. */
    method Ask(id: Id, s: SubRequest) returns (code: Code)
      requires id !in outstanding
      modifies `outstanding, `asked
      ensures code != Succeeded && asked == old(asked) + [Asked(id, s, code, None)]
      ensures outstanding == if code == Pending then old(outstanding)[id := s] else old(outstanding)
      ensures outstanding - {id} == old(outstanding)
    {
      var accepted: bool := *;
      var error: Error := *;
      code := if accepted then Pending else Failed(error);
      SameButOne(outstanding, id, s);
      asked := asked + [Asked(id, s, code, None)];
      if accepted { outstanding := outstanding[id := s]; }
    }

    /** Fetching a stored key may give it at once. */
    method AskForKey(id: Id, identifier: Identifier) returns (code: Code, key: Key)
      requires id !in outstanding
      modifies `outstanding, `asked
      ensures asked == old(asked) + [Asked(id, FetchingKey(identifier), code, if code == Succeeded then Some(key) else None)]
      ensures outstanding == if code == Pending then old(outstanding)[id := FetchingKey(identifier)] else old(outstanding)
      ensures outstanding - {id} == old(outstanding)
    {
      code, key := *, *;
      SameButOne(outstanding, id, FetchingKey(identifier));
      asked := asked + [Asked(id, FetchingKey(identifier), code, if code == Succeeded then Some(key) else None)];
      if code == Pending { outstanding := outstanding[id := FetchingKey(identifier)]; }
    }

    /**
     A completion reaches the processor: of the sub-request outstanding for `id`, which is then no longer so, or of none,
     and then nothing is parked under `id` either.
     */
    ghost predicate Delivered(id: Id, s: Option<SubRequest>)
      reads this
    {
      && id !in outstanding && Conserved(started, replies, live.Keys)
      && (s == None ==> id !in pending)
      && AllOk(live, pending, if s.Some? then outstanding[id := s.value] else outstanding)
    }

    method Complete(id: Id) returns (ghost s: Option<SubRequest>)
      requires Valid() && !Stalled(id)
      modifies `outstanding
      ensures s == Get(old(outstanding), id) && Delivered(id, s) && OnlyTouches(id)
    {
      hide AllOk, Conserved;
      s := Get(outstanding, id);
      assert id in outstanding ==> (outstanding - {id})[id := outstanding[id]] == outstanding;
      assert id !in outstanding ==> outstanding - {id} == outstanding;
      outstanding := outstanding - {id};
    }

    // ---- the bookkeeping of one request -------------------------------------------------------------

    method Begin(id: Id, pid: int, request: Request)
      requires id !in live && AllOk(live, pending, outstanding - {id}) && Conserved(started, replies, live.Keys)
      modifies `live, `started
      ensures ValidBut(id) && live == old(live)[id := Live(pid, request, None, None)] && OnlyTouches(id)
    {
      var l := Live(pid, request, None, None);
      hide AllOk, AllOkBut, Conserved;
      AddOk(live, pending, outstanding, id, l);
      OneMoreStarted(started, replies, live.Keys, id);
      assert (live[id := l]).Keys == live.Keys + {id};
      SameButOne(live, id, l);
      live, started := live[id := l], started + multiset{id};
    }

    /** A slot takes the parked request: then nothing is left to come for it. */
    method Take(id: Id, ghost s: SubRequest)
      requires Delivered(id, Some(s)) && id in pending
      modifies `pending, `live
      ensures ValidBut(id) && id !in outstanding && OnlyTouches(id)
      ensures live == old(live) && id in live && live[id].job == None && pending == old(pending) - {id}
      ensures Header(id, live[id], old(pending)[id])
      ensures Parked(live[id].request, live[id].pid, live[id].collectionKey, s, old(pending)[id].parameters)
    {
      hide AllOk, AllOkBut, Conserved, Parked, EntryOk;
      InLive(live, pending, outstanding, id, s);
      SameButOne(outstanding, id, s);
      TakeOk(live, pending, outstanding[id := s], id, live[id]);
      assert live[id := live[id]] == live;
      pending := pending - {id};
    }

    /** The watcher of a job fires, once. */
    method TakeJob(id: Id) returns (job: Job)
      requires Valid() && id in live && live[id].job.Some?
      modifies `live
      ensures ValidBut(id) && id !in outstanding && OnlyTouches(id) && job == old(live)[id].job.value
      ensures live == old(live)[id := old(live)[id].(job := None)]
      ensures Works(live[id].request, live[id].pid, live[id].collectionKey, job)
    {
      hide AllOk, AllOkBut, Conserved, Works;
      TakeOk(live, pending, outstanding, id, live[id].(job := None));
      assert pending - {id} == pending && outstanding - {id} == outstanding;
      SameButOne(live, id, live[id].(job := None));
      job := live[id].job.value;
      live := live[id := live[id].(job := None)];
    }

    /** The pre-check has told the collection key. */
    method Learn(id: Id, collectionKey: Bytes)
      requires ValidBut(id)
      modifies `live
      ensures ValidBut(id) && OnlyTouches(id)
      ensures live == old(live)[id := old(live)[id].(collectionKey := Some(collectionKey))]
    {
      hide AllOk, Conserved;
      var l := live[id].(collectionKey := Some(collectionKey));
      SameButOne(live, id, l);
      assert (live[id := l]).Keys == live.Keys;
      live := live[id := l];
    }

    /** The list has to be the one of the sub-request that was made, if one was. */
    method Park(id: Id, pr: PendingRequest)
      requires ValidBut(id) && live[id].job == None && EntryOk(id, live[id], Some(pr), Get(outstanding, id))
      modifies `pending
      ensures Valid() && OnlyTouches(id) && pending == old(pending)[id := pr]
    {
      PutOk(live, pending, outstanding, id, live[id], Some(pr));
      assert live[id := live[id]] == live;
      hide AllOk, AllOkBut, Conserved, EntryOk;
      SameButOne(pending, id, pr);
      pending := pending[id := pr];
    }

    method Run(id: Id, job: Job)
      requires ValidBut(id) && id !in outstanding && Works(live[id].request, live[id].pid, live[id].collectionKey, job)
      modifies `live
      ensures Valid() && OnlyTouches(id) && live == old(live)[id := old(live)[id].(job := Some(job))]
      ensures GoesOn(id, old(live)[id].(job := Some(job)))
    {
      PutOk(live, pending, outstanding, id, live[id].(job := Some(job)), None);
      NothingParked(live, pending, outstanding, id);
      hide AllOk, AllOkBut, Conserved, EntryOk, Works;
      SameButOne(live, id, live[id].(job := Some(job)));
      live := live[id := live[id].(job := Some(job))];
    }

    /** requestFinished */
    method Finish(id: Id, code: Code, key: Option<Key>)
      requires ValidBut(id) && id !in outstanding
      modifies `replies, `live
      ensures Valid() && OnlyTouches(id) && Ends(id, code, key)
    {
      hide AllOk, AllOkBut, Conserved;
      DropOk(live, pending, outstanding, id);
      OneMoreReply(started, replies, live.Keys, Reply(id, code, key));
      assert (live - {id}).Keys == live.Keys - {id};
      replies, live := replies + [Reply(id, code, key)], live - {id};
    }

    // ---- continuations ------------------------------------------------------------------------------

    /** The _withKey and _withCollectionKey forms of sign, verify, encrypt, decrypt and initializeCipherSession. */
    method UseKey(id: Id, pid: int, request: Request, code: Code, collectionKey: Bytes)
      requires ValidBut(id) && id !in outstanding && pid == live[id].pid && UsesFor(live[id].request, request)
      requires live[id].collectionKey == None
      modifies `live, `replies
      ensures Valid() && OnlyTouches(id)
      ensures if code == Succeeded then
                GoesOn(id, old(live)[id].(job := Some(Job(Use, pid, request, collectionKey, ""))))
              else Ends(id, code, None)
    {
      hide AllOk, AllOkBut, Conserved, UsesFor;
      if code != Succeeded {
        Finish(id, code, None);
      } else {
        Run(id, Job(Use, pid, request, collectionKey, ""));
      }
    }

    /** secretsUseKeyPreCheckCompleted */
    method UseKeyPreCheckCompleted(id: Id, code: Code, collectionKey: Bytes, ghost s: Option<SubRequest>)
      requires Delivered(id, s) && (s.Some? ==> s.value.UseKeyPreCheck?)
      modifies `live, `pending, `replies
      ensures Valid() && OnlyTouches(id)
      ensures id !in old(pending) ==> live == old(live) && pending == old(pending) && replies == old(replies)
      // the job that follows gets exactly the parameters of the request
      ensures id in old(pending) ==>
                var l := old(live)[id];
                if code == Succeeded then GoesOn(id, l.(job := Some(Job(Use, l.pid, l.request, collectionKey, ""))))
                else Ends(id, code, None)
    {
      hide AllOk, AllOkBut, Conserved, Works, AwaitsUseCheck;
      if id !in pending { Unknown(id, s); return; }
      var pr := pending[id];
      Take(id, s.value);
      var request := DecodeUse(id, pr, live[id]);
      UseKey(id, pr.pid, request, code, collectionKey);
    }

    /** A completion for which nothing is parked is ignored. */
    lemma Unknown(id: Id, s: Option<SubRequest>)
      requires Delivered(id, s) && id !in pending
      ensures Valid()
    {
      hide EntryOk;
      if s.Some? {
        OutstandingIsParked(live, pending, outstanding[id := s.value], id);
      }
    }

    /** secretsStoredKeyCompleted; `readable` tells whether the key that came back could be deserialized. */
    method StoredKeyCompleted(id: Id, code: Code, key: Key, readable: bool, ghost s: Option<SubRequest>)
      requires Delivered(id, s) && (s.Some? ==> s.value.FetchingKey?)
      modifies `live, `pending, `replies
      ensures Valid() && OnlyTouches(id)
      ensures id !in old(pending) ==> live == old(live) && pending == old(pending) && replies == old(replies)
      // a stored key is returned cut down to the components asked for; the other requests go on with the key
      ensures id in old(pending) ==>
                var l := old(live)[id];
                if l.request.StoredKey? then Ends(id, code, Some(Nullified(key, l.request.components)))
                else if code != Succeeded then Ends(id, code, None)
                else if l.request.Encrypt? && !readable then Ends(id, Failed(SerializationError), None)
                else UsesKey(l.request) && GoesOn(id, l.(job := Some(Job(Use, l.pid, WithKey(l.request, key), "", ""))))
    {
      hide AllOk, AllOkBut, Conserved, Works, UsesFor;
      if id !in pending { Unknown(id, s); return; }
      var pr := pending[id];
      Take(id, s.value);
      if pr.requestType == StoredKeyRequest {
        Finish(id, code, Some(Nullified(key, pr.parameters[1].components)));
        return;
      }
      var request := DecodeFetch(id, pr, key, live[id], s.value.identifier);
      var pid := DecodeFetchPid(id, pr, live[id], s.value.identifier);
      if request.Encrypt? && code == Succeeded && !readable {
        Finish(id, Failed(SerializationError), None);
      } else {
        UseKey(id, pid, request, code, "");
      }
    }

    /** generateStoredKey_withKdfData: where the key is stored decides which job runs. */
    method GenerateKey(id: Id, pid: int, request: Request, collectionKey: Bytes)
      requires ValidBut(id) && id !in outstanding && pid == live[id].pid && GeneratesFor(live[id].request, request)
      requires live[id].collectionKey == Some(collectionKey)
      modifies `live
      ensures Valid() && OnlyTouches(id)
      ensures var kind := if request.key.identifier.storagePlugin == request.provider then GenerateAndStore else Generate;
              GoesOn(id, old(live)[id].(job := Some(Job(kind, pid, request, collectionKey, ""))))
    {
      hide AllOk, AllOkBut, Conserved;
      var kind := if request.key.identifier.storagePlugin == request.provider then GenerateAndStore else Generate;
      Run(id, Job(kind, pid, request, collectionKey, ""));
    }

    /** importStoredKey_withPassphrase, once the passphrase is there. */
    method ImportForStoring(id: Id, pid: int, request: Request, collectionKey: Bytes, passphrase: Bytes)
      requires ValidBut(id) && id !in outstanding
      requires pid == live[id].pid && request == live[id].request && request.ImportStoredKey?
      requires live[id].collectionKey == Some(collectionKey)
      modifies `live
      ensures Valid() && OnlyTouches(id)
      ensures var kind := if request.key.identifier.storagePlugin == request.provider then ImportAndStore
                          else ImportForStorage;
              GoesOn(id, old(live)[id].(job := Some(Job(kind, pid, request, collectionKey, passphrase))))
    {
      hide AllOk, AllOkBut, Conserved;
      var kind := if request.key.identifier.storagePlugin == request.provider then ImportAndStore else ImportForStorage;
      Run(id, Job(kind, pid, request, collectionKey, passphrase));
    }

    /** secretsStoreKeyPreCheckCompleted, with generateStoredKey_afterPreCheck and importStoredKey_afterPreCheck. */
    method StoreKeyPreCheckCompleted(id: Id, code: Code, collectionKey: Bytes, ghost s: Option<SubRequest>)
      requires Delivered(id, s) && (s.Some? ==> s.value.StoreKeyPreCheck?) && code != Pending
      modifies `live, `pending, `replies, `outstanding, `asked
      ensures Valid() && OnlyTouches(id)
      ensures id !in old(pending) ==>
                live == old(live) && pending == old(pending) && replies == old(replies) && asked == old(asked)
      ensures id in old(pending) ==>
                var r := old(live)[id].request;
                (r.GenerateStoredKey? || r.ImportStoredKey?) && old(live)[id].collectionKey == None
      ensures id in old(pending) ==>
                var r := old(live)[id].request;
                var prompts := r.GenerateStoredKey? && r.kdf.valid && r.ui.valid;
                && (code != Succeeded ==> Ends(id, code, Some(r.key)))
                // the collection key goes into the job, or is kept while the user is asked for derivation input
                && (code == Succeeded && !prompts ==> Makes(id, old(live)[id], collectionKey, ""))
                && (code == Succeeded && prompts ==>
                      && Asks(id, UserInput(DeriveKey, r.key.identifier, r.ui))
                      && if Answer() == Pending then
                           && id in live && live[id] == old(live)[id].(collectionKey := Some(collectionKey))
                           && id in pending && id in outstanding && replies == old(replies)
                           && outstanding[id] == UserInput(DeriveKey, r.key.identifier, r.ui)
                         else Answer().Failed? && Ends(id, Answer(), Some(r.key)))
                && (code != Succeeded || !prompts ==> asked == old(asked))
    {
      hide AllOk, AllOkBut, Conserved, Works;
      if id !in pending { Unknown(id, s); return; }
      var pr := pending[id];
      Take(id, s.value);
      var r := DecodePreCheck(id, pr, live[id]);
      if code != Succeeded {
        Finish(id, code, Some(r.key));
        return;
      }
      ghost var l := live[id];
      Learn(id, collectionKey);
      if r.ImportStoredKey? {
        ImportForStoring(id, pr.pid, r, collectionKey, ""); // first try without a passphrase
      } else if !r.kdf.valid || !r.ui.valid {
        GenerateKey(id, pr.pid, r, collectionKey);
      } else {
        PromptForDerivation(id, pr.pid, r, collectionKey);
      }
    }

    /** The key of a storing request is made by the plugin that stores it, or to be stored by another. */
    twostate predicate Makes(id: Id, l: Live, collectionKey: Bytes, passphrase: Bytes)
      reads this
    {
      && id in live && live[id].job.Some? && id !in pending && id !in outstanding && replies == old(replies)
      && var j := live[id].job.value;
         && live[id] == l.(collectionKey := Some(collectionKey), job := Some(j))
         && j.kind in {Generate, GenerateAndStore, ImportForStorage, ImportAndStore}
         && (j.kind in {Generate, ImportForStorage} <==> StoredElsewhere(l.request))
         && j == Job(j.kind, l.pid, l.request, collectionKey, passphrase)
    }

    /** The user is asked for the input a key is to be derived from. */
    method PromptForDerivation(id: Id, pid: int, r: Request, collectionKey: Bytes)
      requires ValidBut(id) && id !in outstanding && r.GenerateStoredKey?
      requires live[id] == Live(pid, r, Some(collectionKey), None)
      modifies `live, `pending, `replies, `outstanding, `asked
      ensures Valid() && OnlyTouches(id)
      ensures var s := UserInput(DeriveKey, r.key.identifier, r.ui);
              && Asks(id, s)
              && if Answer() == Pending then Waits(id, s) else Answer().Failed? && Ends(id, Answer(), Some(r.key))
    {
      hide AllOk, AllOkBut, Conserved;
      var asked := Ask(id, UserInput(DeriveKey, r.key.identifier, r.ui));
      StillBut(live, pending, old(outstanding), outstanding, id);
      if asked == Pending {
        Park(id, PendingRequest(pid, id, GenerateStoredKeyRequest,
                                [VKey(r.key), VKpg(r.kpg), VKdf(r.kdf), VMap(r.custom), VText(r.provider),
                                 VBytes(collectionKey)]));
      } else {
        Finish(id, asked, Some(r.key));
      }
    }

    /** secretsUserInputCompleted, with the continuations of the three requests that prompt. */
    method UserInputCompleted(id: Id, code: Code, userInput: Bytes, ghost s: Option<SubRequest>)
      requires Delivered(id, s) && (s.Some? ==> s.value.UserInput?) && code != Pending
      modifies `live, `pending, `replies
      ensures Valid() && OnlyTouches(id)
      ensures id !in old(pending) ==> live == old(live) && pending == old(pending) && replies == old(replies)
      ensures id in old(pending) ==>
                var l := old(live)[id];
                var r := l.request;
                if code != Succeeded then
                  (r.GenerateStoredKey? || r.ImportStoredKey? || r.ImportKey?) &&
                  Ends(id, code, if r.ImportKey? then None else Some(r.key))
                // the input becomes the passphrase, or the input of the derivation; the collection key is the one kept
                else if r.ImportKey? then
                  if r.provider in cryptoPlugins then GoesOn(id, l.(job := Some(Job(Import, l.pid, r, "", userInput))))
                  else Ends(id, Failed(InvalidServiceProvider), None)
                else if r.ImportStoredKey? then l.collectionKey.Some? && Makes(id, l, l.collectionKey.value, userInput)
                else
                  && r.GenerateStoredKey? && l.collectionKey.Some?
                  && var derived := r.(ui := Ui(false, ""), kdf := r.kdf.(input := userInput));
                     var kind := if StoredElsewhere(r) then Generate else GenerateAndStore;
                     GoesOn(id, l.(job := Some(Job(kind, l.pid, derived, l.collectionKey.value, ""))))
    {
      hide AllOk, AllOkBut, Conserved, Works;
      if id !in pending { Unknown(id, s); return; }
      var pr := pending[id];
      Take(id, s.value);
      var r, collectionKey := DecodeUserInput(id, pr, userInput, live[id], s.value);
      if code != Succeeded {
        Finish(id, code, if r.ImportKey? then None else Some(r.key));
      } else if r.GenerateStoredKey? {
        GenerateKey(id, pr.pid, r, collectionKey);
      } else if r.ImportStoredKey? {
        ImportForStoring(id, pr.pid, r, collectionKey, userInput);
      } else {
        StartImport(id, pr.pid, r, userInput);
      }
    }

    /** importKey_withPassphrase, and the end of importKey: the plugin is known, or the request fails. */
    method StartImport(id: Id, pid: int, request: Request, passphrase: Bytes)
      requires ValidBut(id) && id !in outstanding && live[id].collectionKey == None
      requires pid == live[id].pid && request == live[id].request && request.ImportKey?
      modifies `live, `replies
      ensures Valid() && OnlyTouches(id)
      ensures if request.provider in cryptoPlugins then
                GoesOn(id, old(live)[id].(job := Some(Job(Import, pid, request, "", passphrase))))
              else Ends(id, Failed(InvalidServiceProvider), None)
    {
      hide AllOk, AllOkBut, Conserved;
      if request.provider !in cryptoPlugins {
        Finish(id, Failed(InvalidServiceProvider), None);
      } else {
        Run(id, Job(Import, pid, request, "", passphrase));
      }
    }

    /** secretsStoreKeyCompleted: no private part of the key goes back to the client. */
    method StoreKeyCompleted(id: Id, code: Code, ghost s: Option<SubRequest>)
      requires Delivered(id, s) && (s.Some? ==> s.value.StoringKey?)
      modifies `live, `pending, `replies
      ensures Valid() && OnlyTouches(id)
      ensures id !in old(pending) ==> live == old(live) && pending == old(pending) && replies == old(replies)
      // a generated key comes back as the one that was stored, an imported one as its template
      ensures id in old(pending) ==>
                && s.Some? && StoredElsewhere(old(live)[id].request)
                && var sent := if old(live)[id].request.GenerateStoredKey? then s.value.key else old(live)[id].request.key;
                   Ends(id, code, Some(sent.(privateKey := "", secretKey := "")))
    {
      hide AllOk, AllOkBut, Conserved, Works;
      if id !in pending { Unknown(id, s); return; }
      var pr := pending[id];
      Take(id, s.value);
      match pr.requestType {
        case GenerateStoredKeyRequest => Finish(id, code, Some(WithoutPrivateData(pr.parameters[0].key)));
        case ImportStoredKeyRequest => Finish(id, code, Some(WithoutPrivateData(pr.parameters[0].key)));
        case _ => assert false;
      }
    }

    /** The slots with nothing left to do but reply: deleted, listed, lock status and lock code. */
    method AnswerCompleted(id: Id, answer: Answer, code: Code, ghost s: Option<SubRequest>)
      requires Delivered(id, s) && (s.Some? ==> IsAnswer(s.value, answer))
      modifies `live, `pending, `replies
      ensures Valid() && OnlyTouches(id)
      ensures id !in old(pending) ==> live == old(live) && pending == old(pending) && replies == old(replies)
      ensures id in old(pending) ==> Ends(id, code, None) && OnlyAnswered(old(live)[id].request)
    {
      hide AllOk, AllOkBut, Conserved, Works;
      if id !in pending { Unknown(id, s); return; }
      var pr := pending[id];
      Take(id, s.value);
      if AnswersWith(pr.requestType, answer) {
        Finish(id, code, None);
      } else {
        assert false; // a completion of the wrong type would be dropped
      }
    }

    // ---- jobs ---------------------------------------------------------------------------------------

    /**
     The watcher of a job fires. A request comes to be parked with nothing asked here, and only here: a key to be stored
     in another plugin waits for a passphrase that nobody is asked for.
     */
    method JobCompleted(id: Id, code: Code, key: Key)
      requires Valid() && id in live && live[id].job.Some? && code != Pending
      modifies `live, `pending, `replies, `outstanding, `asked
      ensures Valid() && OnlyTouches(id)
      ensures Stalled(id) <==>
              && old(live)[id].job.value.kind == ImportForStorage
              && code == Failed(IncorrectPassphrase) && old(live)[id].request.ui.valid
      ensures Stalled(id) ==> asked == old(asked) && replies == old(replies) && id in live
      ensures id in live ==> replies == old(replies) && live[id] == old(live)[id].(job := None)
      // what is replied at once
      ensures var kind := old(live)[id].job.value.kind;
              && (kind == Use ==> Ends(id, code, None))
              && (kind == Fetch ==> Ends(id, code, Some(key)))
              && (kind == GenerateAndStore ==> Ends(id, code, Some(key.(privateKey := "", secretKey := ""))))
              && (kind in {Use, Fetch, GenerateAndStore} ==> asked == old(asked))
      // a key for another plugin is handed on for storing, with the collection key, and no success is told yet
      ensures var job := old(live)[id].job.value;
              job.kind in {Generate, ImportForStorage} ==>
                if code == Succeeded then
                  var made := if job.kind == Generate then key else key.(imported := true);
                  var s := StoringKey(key.identifier, made, job.collectionKey);
                  && Asks(id, s)
                  && if Answer() == Pending then Waits(id, s)
                     else Answer().Failed? && Ends(id, Answer(), if job.kind == Generate then None else Some(made))
                else asked == old(asked) &&
                     (Stalled(id) || Ends(id, code, if job.kind == Generate then None else Some(key)))
      // a wrong passphrase leads to a prompt, if there may be one
      ensures var job := old(live)[id].job.value;
              job.kind in {Import, ImportAndStore} ==>
                if code == Failed(IncorrectPassphrase) && old(live)[id].request.ui.valid then
                  var r := old(live)[id].request;
                  var s := UserInput(ImportKeyData, if r.ImportKey? then NO_IDENTIFIER else r.key.identifier, r.ui);
                  && Asks(id, s)
                  && if Answer() == Pending then Waits(id, s) else Answer().Failed? && Ends(id, Answer(), Some(key))
                else asked == old(asked) && Ends(id, code, Some(if code == Succeeded then key.(imported := true) else key))
    {
      hide AllOk, AllOkBut, Conserved;
      var job := TakeJob(id);
      if job.kind == Use {
        Finish(id, code, None);
      } else if job.kind == Fetch {
        Finish(id, code, Some(key));
      } else if job.kind == GenerateAndStore {
        Finish(id, code, Some(WithoutPrivateData(key)));
      } else if job.kind == Generate {
        KeyGenerated(id, job, code, key);
      } else if job.kind == ImportForStorage {
        KeyImportedForStorage(id, job, code, key);
      } else {
        KeyImported(id, job, code, key);
      }
      ParkedIsLive(live, pending, outstanding, id);
    }

    /** The generated key is handed to the storage plugin; a failure of either is what the client is told. */
    method KeyGenerated(id: Id, job: Job, code: Code, key: Key)
      requires ValidBut(id) && id !in outstanding && live[id].job == None && code != Pending
      requires Works(live[id].request, live[id].pid, live[id].collectionKey, job) && job.kind == Generate
      modifies `live, `pending, `replies, `outstanding, `asked
      ensures Valid() && OnlyTouches(id)
      ensures if code == Succeeded then
                var s := StoringKey(key.identifier, key, job.collectionKey);
                Asks(id, s) && if Answer() == Pending then Waits(id, s) else Answer().Failed? && Ends(id, Answer(), None)
              else asked == old(asked) && Ends(id, code, None)
    {
      hide AllOk, AllOkBut, Conserved;
      if code != Succeeded {
        Finish(id, code, None);
        return;
      }
      var asked := Ask(id, StoringKey(key.identifier, key, job.collectionKey));
      StillBut(live, pending, old(outstanding), outstanding, id);
      if asked != Pending {
        Finish(id, asked, None);
      } else {
        Park(id, PendingRequest(job.pid, id, GenerateStoredKeyRequest, [VKey(key)]));
      }
    }

    /** importKey and importStoredKey into the plugin itself: a wrong passphrase leads to a prompt. */
    method KeyImported(id: Id, job: Job, code: Code, key: Key)
      requires ValidBut(id) && id !in outstanding && live[id].job == None && code != Pending
      requires job.kind in {Import, ImportAndStore} && (job.request.ImportKey? || job.request.ImportStoredKey?)
      requires Works(live[id].request, live[id].pid, live[id].collectionKey, job)
      modifies `live, `pending, `replies, `outstanding, `asked
      ensures Valid() && OnlyTouches(id)
      ensures var r := job.request;
              if code == Failed(IncorrectPassphrase) && r.ui.valid then
                var s := UserInput(ImportKeyData, if r.ImportKey? then NO_IDENTIFIER else r.key.identifier, r.ui);
                && Asks(id, s)
                && if Answer() == Pending then Waits(id, s) else Answer().Failed? && Ends(id, Answer(), Some(key))
              else asked == old(asked) && Ends(id, code, Some(if code == Succeeded then key.(imported := true) else key))
    {
      hide AllOk, AllOkBut, Conserved;
      var r := job.request;
      var outcome := code;
      if code == Failed(IncorrectPassphrase) && r.ui.valid {
        outcome := Ask(id, UserInput(ImportKeyData, if r.ImportKey? then NO_IDENTIFIER else r.key.identifier, r.ui));
        StillBut(live, pending, old(outstanding), outstanding, id);
      }
      if outcome != Pending {
        Finish(id, outcome, Some(if outcome == Succeeded then key.(imported := true) else key));
      } else if r.ImportKey? {
        Park(id, PendingRequest(job.pid, id, ImportKeyRequest,
                                [VBytes(r.data), VUi(r.ui), VMap(r.custom), VText(r.provider)]));
      } else {
        Park(id, PendingRequest(job.pid, id, ImportStoredKeyRequest,
                                [VBytes(r.data), VKey(r.key), VUi(r.ui), VMap(r.custom), VText(r.provider),
                                 VBytes(job.collectionKey)]));
      }
    }

    /** importStoredKey into another plugin: no prompt is made for a wrong passphrase. */
    method KeyImportedForStorage(id: Id, job: Job, code: Code, key: Key)
      requires ValidBut(id) && id !in outstanding && live[id].job == None && code != Pending
      requires job.kind == ImportForStorage && live[id].request.ImportStoredKey?
      requires Works(live[id].request, live[id].pid, live[id].collectionKey, job)
      modifies `live, `pending, `replies, `outstanding, `asked
      ensures Valid() && OnlyTouches(id)
      ensures Stalled(id) <==> code == Failed(IncorrectPassphrase) && old(live)[id].request.ui.valid
      ensures Stalled(id) ==> live == old(live) && asked == old(asked) && replies == old(replies)
      ensures if code == Succeeded then
                var s := StoringKey(key.identifier, key.(imported := true), job.collectionKey);
                && Asks(id, s)
                && if Answer() == Pending then Waits(id, s)
                   else Answer().Failed? && Ends(id, Answer(), Some(key.(imported := true)))
              else Stalled(id) || (asked == old(asked) && Ends(id, code, Some(key)))
    {
      hide AllOk, AllOkBut, Conserved;
      NothingParked(live, pending, outstanding, id);
      var r := job.request;
      if code == Failed(IncorrectPassphrase) && r.ui.valid {
        Park(id, PendingRequest(job.pid, id, ImportStoredKeyRequest,
                                [VBytes(r.data), VKey(r.key), VUi(r.ui), VMap(r.custom), VText(r.provider),
                                 VBytes(job.collectionKey)]));
        return;
      }
      var outcome, output := code, key;
      if code == Succeeded {
        output := key.(imported := true);
        outcome := Ask(id, StoringKey(output.identifier, output, job.collectionKey));
        StillBut(live, pending, old(outstanding), outstanding, id);
      }
      if outcome == Pending {
        Park(id, PendingRequest(job.pid, id, ImportStoredKeyRequest, [VKey(r.key)]));
      } else {
        Finish(id, outcome, Some(output));
      }
    }

    // ---- the beginning of a request -----------------------------------------------------------------

    /** The checks on the template of a key to be stored, in order. */
    function TemplateError(k: Key, provider: string): Option<Error> {
      var i := k.identifier;
      if i.name == "" || i.collection == "" || i.collection == "standalone" then Some(InvalidKeyIdentifier)
      else if provider == "" || provider !in cryptoPlugins then Some(InvalidServiceProvider)
      else if i.storagePlugin == "" || i.storagePlugin !in storagePlugins then Some(InvalidStorageProvider)
      else if provider == i.storagePlugin && !cryptoPlugins[provider] then Some(StorageError)
      else None
    }

    /** The checks on a reference to a stored key. */
    function ReferenceError(k: Key): Option<Error> {
      var i := k.identifier;
      if i.name == "" || i.collection == "" || i.storagePlugin == "" then Some(InvalidKeyIdentifier)
      else if i.storagePlugin !in storagePlugins then Some(InvalidStorageProvider)
      else None
    }

    /** Nothing has come of the request. */
    twostate predicate NoTrace()
      reads this
    {
      live == old(live) && pending == old(pending) && outstanding == old(outstanding) && replies == old(replies)
    }

    /** The request waits for `s`, from its beginning. */
    twostate predicate BeginsWaiting(id: Id, pid: int, r: Request, s: SubRequest)
      reads this
    {
      && id in live && live[id] == Live(pid, r, None, None) && replies == old(replies)
      && id in pending && id in outstanding && outstanding[id] == s
    }

    /** The sub-request of a new request was taken: the request is parked. */
    method ParkNew(id: Id, pid: int, request: Request, parameters: seq<Variant>, ghost s: SubRequest)
      requires id !in live && AllOk(live, pending, outstanding - {id}) && Conserved(started, replies, live.Keys)
      requires id in outstanding && outstanding[id] == s && Parked(request, pid, None, s, parameters)
      modifies `live, `pending, `started
      ensures Valid() && OnlyTouches(id) && BeginsWaiting(id, pid, request, s)
    {
      hide AllOk, AllOkBut, Conserved, Parked, Works, AwaitsNobody;
      Begin(id, pid, request);
      Park(id, PendingRequest(pid, id, TypeOf(request), parameters));
    }

    /** A request whose sub-request is answered Pending is parked; any other answer goes back at once. */
    method AskAndPark(id: Id, pid: int, request: Request, s: SubRequest, parameters: seq<Variant>) returns (code: Code)
      requires Valid() && id !in live && Parked(request, pid, None, s, parameters)
      modifies `live, `pending, `started, `outstanding, `asked
      ensures Valid() && OnlyTouches(id) && code != Succeeded && Asks(id, s) && code == Answer()
      ensures if code == Pending then BeginsWaiting(id, pid, request, s) else NoTrace()
    {
      hide AllOk, AllOkBut, Conserved, Parked;
      NotLive(live, pending, outstanding, id);
      code := Ask(id, s);
      if code == Pending {
        ParkNew(id, pid, request, parameters, s);
      }
    }

    method StartJob(id: Id, pid: int, request: Request, job: Job)
      requires Valid() && id !in live && Works(request, pid, None, job)
      modifies `live, `started
      ensures Valid() && OnlyTouches(id) && GoesOn(id, Live(pid, request, None, Some(job)))
    {
      hide AllOk, AllOkBut, Conserved, Works;
      NotLive(live, pending, outstanding, id);
      Begin(id, pid, request);
      Run(id, job);
    }

    /** sign, verify, encrypt, decrypt and initializeCipherSession. */
    method StartUse(id: Id, pid: int, r: Request) returns (code: Code)
      requires Valid() && id !in live && UsesKey(r)
      modifies `live, `pending, `started, `outstanding, `asked
      ensures Valid() && OnlyTouches(id) && replies == old(replies) && code != Succeeded
      ensures code != Pending ==> NoTrace()
      ensures code == Pending ==> id in live && live[id] == Live(pid, r, None, live[id].job)
      ensures code == Pending ==> live[id].job.Some? || id in outstanding
      // a key that brings what the operation works with is used as it is
      ensures var whole := r.key.privateKey != "" || r.key.secretKey != "" ||
                           ((r.Verify? || r.Encrypt?) && r.key.publicKey != "");
              var i := r.key.identifier;
              && (r.provider !in cryptoPlugins ==> code == Failed(InvalidServiceProvider) && asked == old(asked))
              && (r.provider in cryptoPlugins && whole ==>
                    && code == Pending && asked == old(asked)
                    && GoesOn(id, Live(pid, r, None, Some(Job(Use, pid, r, "", "")))))
              // a reference is refused, checked by the plugin that has the key, or fetched from it
              && (r.provider in cryptoPlugins && !whole ==>
                    if i.name == "" || i.collection == "" || i.storagePlugin == "" then
                      code == Failed(InvalidKeyIdentifier) && asked == old(asked)
                    else if i.storagePlugin !in storagePlugins then
                      code == Failed(InvalidStorageProvider) && asked == old(asked)
                    else if i.storagePlugin == r.provider then
                      && Asks(id, UseKeyPreCheck(i, OperationOf(r), r.provider)) && code == Answer()
                      && (code == Pending ==> BeginsWaiting(id, pid, r, UseKeyPreCheck(i, OperationOf(r), r.provider)))
                    else Fetches(id, pid, r, code))
    {
      hide AllOk, AllOkBut, Conserved, Parked, OperationOf, Works, WithKey;
      NotLive(live, pending, outstanding, id);
      if r.provider !in cryptoPlugins { return Failed(InvalidServiceProvider); }
      if !IsReference(r) {
        UseFits(r, pid, r.key);
        StartJob(id, pid, r, Job(Use, pid, r, "", ""));
        return Pending;
      }
      var error := ReferenceError(r.key);
      if error.Some? { return Failed(error.value); }
      if r.key.identifier.storagePlugin == r.provider {
        var parameters := UseParameters(r);
        code := AskAndPark(id, pid, r, UseKeyPreCheck(r.key.identifier, OperationOf(r), r.provider), parameters);
        return;
      }
      code := StartFetch(id, pid, r);
    }

    /** The key is asked for; a request waits for it, goes on with it if it is there, or is refused. */
    twostate predicate Fetches(id: Id, pid: int, r: Request, code: Code)
      requires UsesKey(r)
      reads this
    {
      var s := FetchingKey(r.key.identifier);
      && Asks(id, s)
      && match Answer()
         case Pending => code == Pending && BeginsWaiting(id, pid, r, s)
         case Succeeded =>
           && code == Pending && asked[|asked| - 1].key.Some?
           && GoesOn(id, Live(pid, r, None, Some(Job(Use, pid, WithKey(r, asked[|asked| - 1].key.value), "", ""))))
         case Failed(_) => code == Answer() && NoTrace()
    }

    /** The key of a reference is fetched from another plugin; it may be there at once. */
    method StartFetch(id: Id, pid: int, r: Request) returns (code: Code)
      requires Valid() && id !in live && UsesKey(r) && IsReference(r) && r.key.identifier.storagePlugin != r.provider
      modifies `live, `pending, `started, `outstanding, `asked
      ensures Valid() && OnlyTouches(id) && Fetches(id, pid, r, code)
    {
      hide AllOk, AllOkBut, Conserved, Parked, Works, WithKey, IsReference;
      NotLive(live, pending, outstanding, id);
      var parameters := FetchParameters(r, pid);
      var key;
      code, key := AskForKey(id, r.key.identifier);
      if code == Pending {
        ParkNew(id, pid, r, parameters, FetchingKey(r.key.identifier));
      } else if code == Succeeded {
        UseFits(r, pid, key);
        StartJob(id, pid, r, Job(Use, pid, WithKey(r, key), "", ""));
        code := Pending;
      }
    }

    /** generateStoredKey and importStoredKey. */
    method StartStoring(id: Id, pid: int, r: Request) returns (code: Code)
      requires Valid() && id !in live && (r.GenerateStoredKey? || r.ImportStoredKey?)
      modifies `live, `pending, `started, `outstanding, `asked
      ensures Valid() && OnlyTouches(id) && code != Succeeded
      ensures if code == Pending then BeginsWaiting(id, pid, r, StoreKeyPreCheck(r.key.identifier)) else NoTrace()
      // the checks on the template, in their order, and then the pre-check
      ensures var i := r.key.identifier;
              var named := i.name != "" && i.collection != "" && i.collection != "standalone";
              var provided := r.provider != "" && r.provider in cryptoPlugins;
              var stored := i.storagePlugin != "" && i.storagePlugin in storagePlugins;
              if !named then code == Failed(InvalidKeyIdentifier) && asked == old(asked)
              else if !provided then code == Failed(InvalidServiceProvider) && asked == old(asked)
              else if !stored then code == Failed(InvalidStorageProvider) && asked == old(asked)
              else if r.provider == i.storagePlugin && !cryptoPlugins[r.provider] then
                code == Failed(StorageError) && asked == old(asked)
              else Asks(id, StoreKeyPreCheck(i)) && code == Answer()
    {
      hide AllOk, AllOkBut, Conserved;
      var error := TemplateError(r.key, r.provider);
      if error.Some? { return Failed(error.value); }
      var parameters := if r.GenerateStoredKey? then
                          [VKey(r.key), VKpg(r.kpg), VKdf(r.kdf), VUi(r.ui), VMap(r.custom), VText(r.provider)]
                        else [VBytes(r.data), VKey(r.key), VUi(r.ui), VMap(r.custom), VText(r.provider)];
      code := AskAndPark(id, pid, r, StoreKeyPreCheck(r.key.identifier), parameters);
    }

    /** storedKey; `key` is what is returned at once, if anything. */
    method StartStoredKey(id: Id, pid: int, r: Request) returns (code: Code, key: Option<Key>)
      requires Valid() && id !in live && r.StoredKey?
      modifies `live, `pending, `started, `outstanding, `asked
      ensures Valid() && OnlyTouches(id) && replies == old(replies)
      ensures code != Pending ==> NoTrace()
      ensures code != Succeeded ==> key == None
      ensures if r.identifier.storagePlugin == "" || r.identifier.storagePlugin !in storagePlugins then
                code == Failed(InvalidStorageProvider) && asked == old(asked)
              else if r.identifier.storagePlugin in cryptoPlugins then
                && code == Pending && asked == old(asked)
                && GoesOn(id, Live(pid, r, None, Some(Job(Fetch, pid, r, "", ""))))
              else
                && Asks(id, FetchingKey(r.identifier)) && code == Answer()
                && (code == Pending ==> BeginsWaiting(id, pid, r, FetchingKey(r.identifier)))
                // a key that is there at once is cut down like one that comes later
                && (code == Succeeded ==>
                      && asked[|asked| - 1].key.Some?
                      && key == Some(Nullified(asked[|asked| - 1].key.value, r.components)))
    {
      hide AllOk, AllOkBut, Conserved;
      NotLive(live, pending, outstanding, id);
      key := None;
      if r.identifier.storagePlugin == "" || r.identifier.storagePlugin !in storagePlugins {
        return Failed(InvalidStorageProvider), None;
      }
      if r.identifier.storagePlugin in cryptoPlugins {
        StartJob(id, pid, r, Job(Fetch, pid, r, "", ""));
        return Pending, None;
      }
      var k;
      code, k := AskForKey(id, r.identifier);
      if code == Pending {
        ParkNew(id, pid, r, [VIdentifier(r.identifier), VComponents(r.components)], FetchingKey(r.identifier));
      } else if code == Succeeded {
        key := Some(Nullified(k, r.components));
      }
    }

    /** importKey and the requests that run one job. */
    method StartPlugin(id: Id, pid: int, r: Request) returns (code: Code)
      requires Valid() && id !in live && (r.ImportKey? || r.Direct?)
      modifies `live, `started
      ensures Valid() && OnlyTouches(id)
      ensures if r.provider in cryptoPlugins then
                code == Pending &&
                GoesOn(id, Live(pid, r, None, Some(Job(if r.ImportKey? then Import else Use, pid, r, "", ""))))
              else code == Failed(InvalidServiceProvider) && NoTrace()
    {
      hide AllOk, AllOkBut, Conserved;
      if r.provider !in cryptoPlugins { return Failed(InvalidServiceProvider); }
      StartJob(id, pid, r, Job(if r.ImportKey? then Import else Use, pid, r, "", ""));
      code := Pending;
    }

    /** deleteStoredKey, storedKeyIdentifiers and the lock requests. */
    method StartAnswer(id: Id, pid: int, r: Request) returns (code: Code)
      requires Valid() && id !in live && OnlyAnswered(r)
      modifies `live, `pending, `started, `outstanding, `asked
      ensures Valid() && OnlyTouches(id) && code != Succeeded
      ensures code != Pending ==> NoTrace()
      ensures var targeted := r.ModifyLockCode? || r.ProvideLockCode? || r.ForgetLockCode? ||
                              (r.QueryLockStatus? && r.targetType == EXTENSION_PLUGIN);
              if targeted && r.target !in cryptoPlugins then code == Failed(InvalidServiceProvider) && asked == old(asked)
              else
                var s := match r {
                  case DeleteStoredKey(identifier) => DeletingKey(identifier)
                  case StoredKeyIdentifiers(plugin, collection, custom) => ListingKeys(collection, plugin, custom)
                  case QueryLockStatus(_, target) => LockStatus(if targeted then target else "")
                  case ModifyLockCode(_, target, ui) => LockCode(ModifyLock, target, ui)
                  case ProvideLockCode(_, target, ui) => LockCode(UnlockPlugin, target, ui)
                  case ForgetLockCode(_, target, ui) => LockCode(LockPlugin, target, ui)
                };
                Asks(id, s) && code == Answer() && (code == Pending ==> BeginsWaiting(id, pid, r, s))
    {
      hide AllOk, AllOkBut, Conserved;
      if (r.ModifyLockCode? || r.ProvideLockCode? || r.ForgetLockCode? ||
          (r.QueryLockStatus? && r.targetType == EXTENSION_PLUGIN))
         && r.target !in cryptoPlugins
      {
        return Failed(InvalidServiceProvider);
      }
      if r.DeleteStoredKey? {
        code := AskAndPark(id, pid, r, DeletingKey(r.identifier), [VIdentifier(r.identifier)]);
      } else if r.StoredKeyIdentifiers? {
        code := AskAndPark(id, pid, r, ListingKeys(r.collection, r.storagePlugin, r.custom), []);
      } else if r.QueryLockStatus? {
        code := AskAndPark(id, pid, r, LockStatus(if r.targetType == EXTENSION_PLUGIN then r.target else ""),
                           [VPid(pid), VTargetType(r.targetType), VText(r.target)]);
      } else {
        var purpose := if r.ModifyLockCode? then ModifyLock else if r.ProvideLockCode? then UnlockPlugin else LockPlugin;
        code := AskAndPark(id, pid, r, LockCode(purpose, r.target, r.ui),
                           [VPid(pid), VTargetType(r.targetType), VText(r.target), VUi(r.ui)]);
      }
    }
  }

  /** A key that was fetched, or that came with the request, makes a job of it. */
  lemma UseFits(r: Request, pid: int, key: Key)
    requires UsesKey(r) && (key == r.key || (IsReference(r) && r.key.identifier.storagePlugin != r.provider))
    ensures Works(r, pid, None, Job(Use, pid, WithKey(r, key), "", ""))
    ensures key == r.key ==> WithKey(r, key) == r
  {
  }

  lemma OutstandingIsParked(live: Lives, pending: Pendings, outstanding: Outstanding, id: Id)
    requires AllOk(live, pending, outstanding) && id in outstanding
    ensures id in pending
  {
    assert EntryOk(id, live[id], Get(pending, id), Get(outstanding, id));
  }

  lemma InLive(live: Lives, pending: Pendings, outstanding: Outstanding, id: Id, s: SubRequest)
    requires AllOk(live, pending, outstanding[id := s]) && id in pending
    ensures id in live && live[id].job == None
    ensures Header(id, live[id], pending[id])
    ensures Parked(live[id].request, live[id].pid, live[id].collectionKey, s, pending[id].parameters)
  {
    assert EntryOk(id, live[id], Get(pending, id), Get(outstanding[id := s], id));
    hide Parked, Works;
  }

  lemma StillBut(live: Lives, pending: Pendings, before: Outstanding, after: Outstanding, id: Id)
    requires AllOkBut(live, pending, before, id) && after - {id} == before - {id}
    ensures AllOkBut(live, pending, after, id)
  {
  }

  /** The completions that carry no key, by the slot they go to. */
  datatype Answer = Deleted | Listed | Status | CodeDone

  predicate IsAnswer(s: SubRequest, answer: Answer) {
    match answer
    case Deleted => s.DeletingKey?
    case Listed => s.ListingKeys?
    case Status => s.LockStatus?
    case CodeDone => s.LockCode?
  }

  predicate AnswersWith(t: RequestType, answer: Answer) {
    match answer
    case Deleted => t == DeleteStoredKeyRequest
    case Listed => t == StoredKeyIdentifiersRequest
    case Status => t == QueryLockStatusRequest
    case CodeDone => t in {ModifyLockCodeRequest, ProvideLockCodeRequest, ForgetLockCodeRequest}
  }

  lemma ParkedIsLive(live: Lives, pending: Pendings, outstanding: Outstanding, id: Id)
    requires AllOk(live, pending, outstanding)
    ensures id in pending ==> id in live
    ensures id in outstanding ==> id in live
  {
  }

  lemma NothingParked(live: Lives, pending: Pendings, outstanding: Outstanding, id: Id)
    requires AllOkBut(live, pending, outstanding, id)
    ensures id in live && id !in pending
  {
  }

  lemma NotLive(live: Lives, pending: Pendings, outstanding: Outstanding, id: Id)
    requires AllOk(live, pending, outstanding) && id !in live
    ensures id !in pending && id !in outstanding && outstanding - {id} == outstanding
  {
  }

  method UseParameters(r: Request) returns (p: seq<Variant>)
    requires UsesKey(r) && IsReference(r) && r.key.identifier.storagePlugin == r.provider
    ensures forall pid :: Parked(r, pid, None, UseKeyPreCheck(r.key.identifier, OperationOf(r), r.provider), p)
  {
    match r {
      case Sign(data, key, padding, digest, custom, provider) =>
        p := [VBytes(data), VKey(key), VSignaturePadding(padding), VDigest(digest), VMap(custom), VText(provider)];
      case Verify(signature, data, key, padding, digest, custom, provider) =>
        p := [VBytes(signature), VBytes(data), VKey(key), VSignaturePadding(padding), VDigest(digest), VMap(custom),
              VText(provider)];
      case Encrypt(data, iv, key, mode, padding, authentication, custom, provider) =>
        p := [VBytes(data), VBytes(iv), VKey(key), VBlockMode(mode), VEncryptionPadding(padding), VBytes(authentication),
              VMap(custom), VText(provider)];
      case Decrypt(data, iv, key, mode, padding, authentication, tag, custom, provider) =>
        p := [VBytes(data), VBytes(iv), VKey(key), VBlockMode(mode), VEncryptionPadding(padding), VBytes(authentication),
              VBytes(tag), VMap(custom), VText(provider)];
      case InitializeCipherSession(iv, key, operation, mode, padding, sigPadding, digest, custom, provider) =>
        p := [VBytes(iv), VKey(key), VOperation(operation), VBlockMode(mode), VEncryptionPadding(padding),
              VSignaturePadding(sigPadding), VDigest(digest), VMap(custom), VText(provider)];
    }
  }

  method FetchParameters(r: Request, pid: int) returns (p: seq<Variant>)
    requires UsesKey(r) && IsReference(r) && r.key.identifier.storagePlugin != r.provider
    ensures Parked(r, pid, None, FetchingKey(r.key.identifier), p)
  {
    match r {
      case Sign(data, _, padding, digest, custom, provider) =>
        p := [VBytes(data), VSignaturePadding(padding), VDigest(digest), VMap(custom), VText(provider)];
      case Verify(signature, data, _, padding, digest, custom, provider) =>
        p := [VBytes(signature), VBytes(data), VSignaturePadding(padding), VDigest(digest), VMap(custom), VText(provider)];
      case Encrypt(data, iv, _, mode, padding, authentication, custom, provider) =>
        p := [VBytes(data), VBytes(iv), VBlockMode(mode), VEncryptionPadding(padding), VBytes(authentication), VMap(custom),
              VText(provider)];
      case Decrypt(data, iv, _, mode, padding, authentication, tag, custom, provider) =>
        p := [VBytes(data), VBytes(iv), VBlockMode(mode), VEncryptionPadding(padding), VBytes(authentication), VBytes(tag),
              VMap(custom), VText(provider)];
      case InitializeCipherSession(iv, _, operation, mode, padding, sigPadding, digest, custom, provider) =>
        p := [VPid(pid), VBytes(iv), VOperation(operation), VBlockMode(mode), VEncryptionPadding(padding),
              VSignaturePadding(sigPadding), VDigest(digest), VMap(custom), VText(provider)];
    }
  }

  // ---- whole runs -----------------------------------------------------------------------------------

  datatype Event =
    | NewRequest(id: Id, pid: int, request: Request)
    | JobDone(id: Id, code: Code, key: Key)
    | StoredKeyDone(id: Id, code: Code, key: Key, readable: bool)
    | UseKeyPreCheckDone(id: Id, code: Code, collectionKey: Bytes)
    | StoreKeyPreCheckDone(id: Id, code: Code, collectionKey: Bytes)
    | UserInputDone(id: Id, code: Code, userInput: Bytes)
    | StoreKeyDone(id: Id, code: Code)
    | AnswerDone(id: Id, code: Code, answer: Answer)

  /** The completion event that answers a sub-request. */
  predicate Answers(e: Event, s: SubRequest) {
    match e
    case StoredKeyDone(_, _, _, _) => s.FetchingKey?
    case UseKeyPreCheckDone(_, _, _) => s.UseKeyPreCheck?
    case StoreKeyPreCheckDone(_, code, _) => s.StoreKeyPreCheck? && code != Pending
    case UserInputDone(_, code, _) => s.UserInput? && code != Pending
    case StoreKeyDone(_, _) => s.StoringKey?
    case AnswerDone(_, _, answer) => IsAnswer(s, answer)
    case _ => false
  }

  /**
   What can happen: a new id is not in use, a plugin thread that was started is done, or a sub-request that was made is
   completed, finally.
   */
  predicate Possible(live: Lives, outstanding: Outstanding, e: Event) {
    match e
    case NewRequest(id, _, _) => id !in live
    case JobDone(id, code, _) => id in live && live[id].job.Some? && code != Pending
    case _ => e.id in outstanding && Answers(e, outstanding[e.id])
  }

  predicate CanHappen(p: RequestProcessor, e: Event)
    reads p
  {
    Possible(p.live, p.outstanding, e)
  }

  /** Whether a request is well-formed and its plugins are known. */
  predicate Acceptable(r: Request, cryptoPlugins: map<string, bool>, storagePlugins: set<string>) {
    match r
    case GenerateStoredKey(key, _, _, _, _, provider) => StorableAs(key.identifier, provider, cryptoPlugins, storagePlugins)
    case ImportStoredKey(_, key, _, _, provider) => StorableAs(key.identifier, provider, cryptoPlugins, storagePlugins)
    case StoredKey(identifier, _, _) => identifier.storagePlugin != "" && identifier.storagePlugin in storagePlugins
    case ImportKey(_, _, _, provider) => provider in cryptoPlugins
    case Direct(provider) => provider in cryptoPlugins
    case DeleteStoredKey(_) => true
    case StoredKeyIdentifiers(_, _, _) => true
    case QueryLockStatus(targetType, target) => targetType == EXTENSION_PLUGIN ==> target in cryptoPlugins
    case ModifyLockCode(_, target, _) => target in cryptoPlugins
    case ProvideLockCode(_, target, _) => target in cryptoPlugins
    case ForgetLockCode(_, target, _) => target in cryptoPlugins
    case _ =>
      var i := r.key.identifier;
      && r.provider in cryptoPlugins
      && (IsReference(r) ==>
            i.name != "" && i.collection != "" && i.storagePlugin != "" && i.storagePlugin in storagePlugins)
  }

  predicate StorableAs(i: Identifier, provider: string, cryptoPlugins: map<string, bool>, storagePlugins: set<string>) {
    && i.name != "" && i.collection != "" && i.collection != "standalone"
    && provider != "" && provider in cryptoPlugins
    && i.storagePlugin != "" && i.storagePlugin in storagePlugins
    && (provider == i.storagePlugin ==> cryptoPlugins[provider])
  }

  method StartRequest(p: RequestProcessor, id: Id, pid: int, r: Request) returns (code: Code)
    requires p.Valid() && id !in p.live
    modifies p
    ensures p.Valid() && p.OnlyTouches(id) && p.replies == old(p.replies)
    ensures if code == Pending then id in p.live && p.live[id] == Live(pid, r, None, p.live[id].job) else p.NoTrace()
    ensures code == Pending ==> p.live[id].job.Some? || id in p.outstanding
    // a request that is not acceptable is refused at once; any other runs a job, or gets what the Secrets side answers
    ensures !Acceptable(r, p.cryptoPlugins, p.storagePlugins) ==> code.Failed? && p.asked == old(p.asked)
    ensures Acceptable(r, p.cryptoPlugins, p.storagePlugins) ==>
              if p.asked == old(p.asked) then code == Pending && p.live[id].job.Some?
              else
                && |p.asked| == |old(p.asked)| + 1 && p.asked[..|old(p.asked)|] == old(p.asked)
                && p.asked[|old(p.asked)|].id == id
                && code == if p.Answer() == Succeeded && !r.StoredKey? then Pending else p.Answer()
    ensures code == Succeeded ==> r.StoredKey?
  {
    hide AllOk, Conserved, Parked, Works, EntryOk, OperationOf, WithKey, Nullified;
    if UsesKey(r) {
      code := p.StartUse(id, pid, r);
    } else if r.GenerateStoredKey? || r.ImportStoredKey? {
      code := p.StartStoring(id, pid, r);
    } else if r.StoredKey? {
      var answer, _ := p.StartStoredKey(id, pid, r);
      code := answer;
    } else if r.ImportKey? || r.Direct? {
      code := p.StartPlugin(id, pid, r);
    } else {
      code := p.StartAnswer(id, pid, r);
    }
  }

  // ---- what one event does --------------------------------------------------------------------------

  datatype Snapshot = Snapshot(
    cryptoPlugins: map<string, bool>, storagePlugins: set<string>,
    live: Lives, pending: Pendings, outstanding: Outstanding, replies: seq<Reply>, asked: seq<Asked>)

  /** Everything about other requests is the same. */
  ghost predicate OnlyAbout(b: Snapshot, a: Snapshot, id: Id) {
    && a.cryptoPlugins == b.cryptoPlugins && a.storagePlugins == b.storagePlugins
    && a.pending - {id} == b.pending - {id} && a.live - {id} == b.live - {id} && a.outstanding - {id} == b.outstanding - {id}
    && b.asked <= a.asked && |a.asked| <= |b.asked| + 1
    && (a.asked != b.asked ==> a.asked[|b.asked|].id == id)
  }

  /** The event that can bring a request to a good end. */
  predicate Concludes(r: Request, e: Event) {
    if StoredElsewhere(r) then e.StoreKeyDone?
    else if r.StoredKey? then e.JobDone? || e.StoredKeyDone?
    else if OnlyAnswered(r) then e.AnswerDone?
    else e.JobDone?
  }

  /** An import that may be tried again with a passphrase. */
  predicate WrongPassphrase(l: Live, e: Event) {
    && e.JobDone? && l.job.Some? && l.job.value.kind in {Import, ImportAndStore, ImportForStorage}
    && e.code == Failed(IncorrectPassphrase)
    && (l.request.ImportKey? || l.request.ImportStoredKey?) && l.request.ui.valid
  }

  ghost predicate Starts(b: Snapshot, e: Event, a: Snapshot)
    requires e.NewRequest?
  {
    && a.replies == b.replies
    && (e.id in a.live ==> a.live[e.id] == Live(e.pid, e.request, None, a.live[e.id].job))
    && (e.id in a.live && a.live[e.id].job == None ==> e.id in a.outstanding)
    && (e.id in a.live ==> Acceptable(e.request, b.cryptoPlugins, b.storagePlugins))
    // a well-formed request is not lost: it goes on, or the Secrets side has answered
    && (e.id !in a.live && Acceptable(e.request, b.cryptoPlugins, b.storagePlugins) ==>
          |a.asked| == |b.asked| + 1 && a.asked[|b.asked|].answer != Pending)
  }

  /** The request goes on: with the next phase, the same parameters, and the collection key once it is known. */
  ghost predicate Continues(b: Snapshot, e: Event, a: Snapshot)
    requires !e.NewRequest? && e.id in b.live && e.id in a.live
  {
    var l, m := b.live[e.id], a.live[e.id];
    && a.replies == b.replies && m.pid == l.pid && m.request == l.request
    && (m.collectionKey == l.collectionKey ||
        (&& l.collectionKey == None && e.StoreKeyPreCheckDone? && e.code == Succeeded
         && m.collectionKey == Some(e.collectionKey)))
    && (e.code == Succeeded || WrongPassphrase(l, e))
    && (if e.JobDone? then m.job == None
        else m.job.Some? || (e.StoreKeyPreCheckDone? && e.id in a.outstanding && a.outstanding[e.id].UserInput?))
    && (e.id in a.outstanding && a.outstanding[e.id].StoringKey? ==>
          && e.JobDone? && e.code == Succeeded
          && a.outstanding[e.id].identifier == e.key.identifier
          && a.outstanding[e.id].key == if l.request.ImportStoredKey? then e.key.(imported := true) else e.key)
  }

  /** The request is replied to: a failure as it is, a success only by the event that can bring it. */
  ghost predicate Replied(b: Snapshot, e: Event, a: Snapshot)
    requires !e.NewRequest? && e.id in b.live
  {
    var l := b.live[e.id];
    && |a.replies| == |b.replies| + 1 && a.replies[..|b.replies|] == b.replies
    && var reply := a.replies[|b.replies|];
       && reply.id == e.id
       && (reply.code == Succeeded ==> e.code == Succeeded && Concludes(l.request, e))
       && (e.code.Failed? && !WrongPassphrase(l, e) ==> reply.code == e.code)
       && (e.code != Pending ==> reply.code != Pending)
       // no private part of a key leaves with it, unless it was asked for and is allowed
       && (reply.key.Some? && (reply.key.value.privateKey != "" || reply.key.value.secretKey != "") ==>
             && !e.StoreKeyDone? && !(l.request.GenerateStoredKey? && reply.code == Succeeded)
             && (e.StoredKeyDone? ==>
                   l.request.StoredKey? && PrivateKeyData in l.request.components && PrivateKeyData in e.key.constraints))
  }

  ghost predicate Stepped(b: Snapshot, e: Event, a: Snapshot) {
    if !Possible(b.live, b.outstanding, e) then a == b
    else
      && OnlyAbout(b, a, e.id)
      && if e.NewRequest? then Starts(b, e, a)
         else e.id in b.live && if e.id in a.live then Continues(b, e, a) else Replied(b, e, a)
  }

  /** The Secrets side completes the sub-request of `e.id`: a key was fetched or may be used, or all is done. */
  method CompleteUsing(p: RequestProcessor, e: Event)
    requires p.Valid() && (e.StoredKeyDone? || e.UseKeyPreCheckDone? || e.AnswerDone?)
    modifies p
    ensures p.Valid() && p.OnlyTouches(e.id) && AtMostOne(old(p.replies), p.replies, e.id)
    ensures Stepped(old(p.Now()), e, p.Now())
  {
    hide AllOk, Conserved, Parked, Works, EntryOk, Acceptable;
    if !CanHappen(p, e) { return; }
    OutstandingIsParked(p.live, p.pending, p.outstanding, e.id);
    ParkedIsLive(p.live, p.pending, p.outstanding, e.id);
    var s := p.Complete(e.id);
    match e {
      case StoredKeyDone(id, code, key, readable) => p.StoredKeyCompleted(id, code, key, readable, s);
      case UseKeyPreCheckDone(id, code, collectionKey) => p.UseKeyPreCheckCompleted(id, code, collectionKey, s);
      case AnswerDone(id, code, answer) => p.AnswerCompleted(id, answer, code, s);
    }
  }

  /** Likewise for the check before a key is stored. */
  method CompletePreCheck(p: RequestProcessor, e: Event)
    requires p.Valid() && e.StoreKeyPreCheckDone?
    modifies p
    ensures p.Valid() && p.OnlyTouches(e.id) && AtMostOne(old(p.replies), p.replies, e.id)
    ensures Stepped(old(p.Now()), e, p.Now())
  {
    hide AllOk, Conserved, Parked, Works, EntryOk, Acceptable;
    if !CanHappen(p, e) { return; }
    OutstandingIsParked(p.live, p.pending, p.outstanding, e.id);
    ParkedIsLive(p.live, p.pending, p.outstanding, e.id);
    var s := p.Complete(e.id);
    p.StoreKeyPreCheckCompleted(e.id, e.code, e.collectionKey, s);
  }

  /** Likewise for the user's input and for a key that was stored. */
  method CompleteStoring(p: RequestProcessor, e: Event)
    requires p.Valid() && (e.UserInputDone? || e.StoreKeyDone?)
    modifies p
    ensures p.Valid() && p.OnlyTouches(e.id) && AtMostOne(old(p.replies), p.replies, e.id)
    ensures Stepped(old(p.Now()), e, p.Now())
  {
    hide AllOk, Conserved, Parked, Works, EntryOk, Acceptable;
    if !CanHappen(p, e) { return; }
    OutstandingIsParked(p.live, p.pending, p.outstanding, e.id);
    ParkedIsLive(p.live, p.pending, p.outstanding, e.id);
    var s := p.Complete(e.id);
    match e {
      case UserInputDone(id, code, userInput) => p.UserInputCompleted(id, code, userInput, s);
      case StoreKeyDone(id, code) => p.StoreKeyCompleted(id, code, s);
    }
  }

  /** A plugin thread is done. */
  method FinishJob(p: RequestProcessor, e: Event)
    requires p.Valid() && e.JobDone?
    modifies p
    ensures p.Valid() && p.OnlyTouches(e.id) && AtMostOne(old(p.replies), p.replies, e.id)
    ensures Stepped(old(p.Now()), e, p.Now())
  {
    hide AllOk, Conserved, Parked, EntryOk, Acceptable, Works, UsesKey, OnlyAnswered;
    if !CanHappen(p, e) { return; }
    JobFits(p.live, p.pending, p.outstanding, e.id);
    p.JobCompleted(e.id, e.code, e.key);
  }

  lemma JobFits(live: Lives, pending: Pendings, outstanding: Outstanding, id: Id)
    requires AllOk(live, pending, outstanding) && id in live && live[id].job.Some?
    ensures var r, kind := live[id].request, live[id].job.value.kind;
            && (kind == Fetch <==> r.StoredKey?) && (kind == Import <==> r.ImportKey?) && !OnlyAnswered(r)
            && (kind in {Generate, ImportForStorage} <==> StoredElsewhere(r))
            && (kind in {Generate, GenerateAndStore} <==> r.GenerateStoredKey?)
            && (kind in {ImportForStorage, ImportAndStore} <==> r.ImportStoredKey?)
  {
    assert EntryOk(id, live[id], Get(pending, id), Get(outstanding, id));
    hide WithKey, AllOk, Parked;
  }

  /** One event touches one request, and ends it or takes it to its next phase. */
  method Handle(p: RequestProcessor, e: Event)
    requires p.Valid()
    modifies p
    ensures p.Valid() && p.OnlyTouches(e.id) && AtMostOne(old(p.replies), p.replies, e.id)
    ensures Stepped(old(p.Now()), e, p.Now())
  {
    if e.NewRequest? {
      hide AllOk, Conserved, Acceptable;
      if !CanHappen(p, e) { return; }
      var _ := StartRequest(p, e.id, e.pid, e.request);
    } else {
      hide AllOk, Conserved, Stepped;
      match e {
        case JobDone(_, _, _) => FinishJob(p, e);
        case StoredKeyDone(_, _, _, _) => CompleteUsing(p, e);
        case UseKeyPreCheckDone(_, _, _) => CompleteUsing(p, e);
        case AnswerDone(_, _, _) => CompleteUsing(p, e);
        case StoreKeyPreCheckDone(_, _, _) => CompletePreCheck(p, e);
        case UserInputDone(_, _, _) => CompleteStoring(p, e);
        case StoreKeyDone(_, _) => CompleteStoring(p, e);
      }
    }
  }

  /** A request started once has either been replied to once or is still live. */
  lemma RepliedAtMostOnce(started: multiset<Id>, replies: seq<Reply>, live: set<Id>, id: Id)
    requires Conserved(started, replies, live)
    ensures multiset(Ids(replies))[id] <= started[id]
    ensures started[id] == 1 ==> (multiset(Ids(replies))[id] == 1 <==> id !in live)
  {
  }

  /**
   What is to come for a live request: one job, or the completion of one sub-request whose arguments and parked list
   belong to the request, or nothing, and then it is an import into another plugin than the one that imports.
   */
  lemma LiveOrStalled(p: RequestProcessor, id: Id)
    requires p.Valid() && id in p.live
    ensures p.live[id].job.Some? <==> id !in p.pending
    ensures id in p.outstanding ==>
              id in p.pending && Parked(p.live[id].request, p.live[id].pid, p.live[id].collectionKey, p.outstanding[id],
                                        p.pending[id].parameters)
    ensures p.Stalled(id) <==> p.live[id].job == None && id !in p.outstanding
    ensures p.Stalled(id) ==>
              var r := p.live[id].request;
              r.ImportStoredKey? && r.ui.valid && r.key.identifier.storagePlugin != r.provider
  {
    assert EntryOk(id, p.live[id], Get(p.pending, id), Get(p.outstanding, id));
    hide Parked, Works, AwaitsPassphrase;
  }

  lemma OthersUnchanged<T>(before: map<Id, T>, after: map<Id, T>, id: Id, other: Id)
    requires after - {id} == before - {id} && other != id
    ensures other in after <==> other in before
    ensures other in before ==> after[other] == before[other]
  {
    assert other in before ==> other in before - {id} && (before - {id})[other] == before[other];
    assert other in after ==> other in after - {id} && (after - {id})[other] == after[other];
  }

  /** Nothing that can happen concerns a stalled request: it has no job, and no sub-request of it can be completed. */
  lemma StalledIsLeftAlone(p: RequestProcessor, e: Event, id: Id)
    requires p.Valid() && CanHappen(p, e) && p.Stalled(id)
    ensures e.id != id
  {
    ParkedIsLive(p.live, p.pending, p.outstanding, id);
    LiveOrStalled(p, id);
    hide AllOk;
  }

  /** The states of a run, before each event and at the end. */
  ghost predicate Trace(states: seq<Snapshot>, events: seq<Event>) {
    && |states| == |events| + 1
    && (forall i :: 0 <= i < |states| ==> AllOk(states[i].live, states[i].pending, states[i].outstanding))
    && (forall i :: 0 <= i < |events| ==> Stepped(states[i], events[i], states[i + 1]))
  }

  /**
   Any interleaving of requests, jobs and completions. Every step decodes what was parked for the sub-request that was
   completed, and calls requestFinished at most once; requests that are stalled never go on and are never replied to.
   */
  method HandleAll(p: RequestProcessor, events: seq<Event>, ghost stalled: set<Id>) returns (ghost states: seq<Snapshot>)
    requires p.Valid() && forall id :: id in stalled ==> p.Stalled(id)
    modifies p
    ensures p.Valid()
    ensures Trace(states, events) && states[0] == old(p.Now()) && states[|events|] == p.Now()
    ensures forall id :: id in stalled ==> p.Stalled(id) && Get(p.pending, id) == Get(old(p.pending), id)
    ensures old(p.replies) <= p.replies
    ensures forall i :: |old(p.replies)| <= i < |p.replies| ==> p.replies[i].id !in stalled
  {
    hide AllOk, Conserved, Stepped;
    states := [p.Now()];
    for i := 0 to |events|
      invariant p.Valid()
      invariant Trace(states, events[..i]) && states[0] == old(p.Now()) && states[i] == p.Now()
      invariant forall id :: id in stalled ==> p.Stalled(id) && Get(p.pending, id) == Get(old(p.pending), id)
      invariant old(p.replies) <= p.replies
      invariant forall i :: |old(p.replies)| <= i < |p.replies| ==> p.replies[i].id !in stalled
    {
      ghost var pending, outstanding := p.pending, p.outstanding;
      ghost var possible := CanHappen(p, events[i]);
      forall id | id in stalled && possible ensures events[i].id != id {
        StalledIsLeftAlone(p, events[i], id);
      }
      Handle(p, events[i]);
      forall id | id in stalled ensures p.Stalled(id) && p.pending[id] == pending[id] {
        if possible {
          OthersUnchanged(pending, p.pending, events[i].id, id);
          OthersUnchanged(outstanding, p.outstanding, events[i].id, id);
        } else {
          NothingHappened(states[i], events[i], p.Now());
        }
      }
      if !possible { NothingHappened(states[i], events[i], p.Now()); }
      states := states + [p.Now()];
      TraceLonger(states, events, i);
    }
    assert events[..|events|] == events;
  }

  lemma NothingHappened(b: Snapshot, e: Event, a: Snapshot)
    requires Stepped(b, e, a) && !Possible(b.live, b.outstanding, e)
    ensures a == b
  {
  }

  lemma TraceLonger(states: seq<Snapshot>, events: seq<Event>, n: nat)
    requires n < |events| && |states| == n + 2 && Trace(states[..n + 1], events[..n])
    requires AllOk(states[n + 1].live, states[n + 1].pending, states[n + 1].outstanding)
    requires Stepped(states[n], events[n], states[n + 1])
    ensures Trace(states, events[..n + 1])
  {
    hide AllOk, Stepped;
    assert forall i :: 0 <= i <= n ==> states[..n + 1][i] == states[i];
    assert events[..n + 1][..n] == events[..n];
    forall i | 0 <= i < n + 1 ensures Stepped(states[i], events[..n + 1][i], states[i + 1]) {
      if i < n { assert events[..n][i] == events[i]; }
    }
  }

  // ---- what lies behind a reply ---------------------------------------------------------------------

  lemma OtherIdStays(b: Snapshot, e: Event, a: Snapshot, id: Id)
    requires Stepped(b, e, a) && (e.id != id || !Possible(b.live, b.outstanding, e))
    ensures Get(a.live, id) == Get(b.live, id) && Get(a.outstanding, id) == Get(b.outstanding, id)
  {
    if Possible(b.live, b.outstanding, e) {
      OthersUnchanged(b.live, a.live, e.id, id);
      OthersUnchanged(b.outstanding, a.outstanding, e.id, id);
    }
  }

  lemma StepReplies(b: Snapshot, e: Event, a: Snapshot)
    requires Stepped(b, e, a)
    ensures b.replies <= a.replies && |a.replies| <= |b.replies| + 1
    ensures a.replies != b.replies ==>
              && !e.NewRequest? && Possible(b.live, b.outstanding, e) && e.id in b.live && e.id !in a.live
              && Replied(b, e, a) && a.replies[|b.replies|].id == e.id
  {
    hide Possible, Acceptable;
  }

  /** Every reply was made at one step, for a request that was live until then. */
  lemma {:induction false} RepliesHaveCauses(states: seq<Snapshot>, events: seq<Event>, n: nat, k: nat) returns (i: nat)
    requires Trace(states, events) && n <= |events| && |states[0].replies| <= k < |states[n].replies|
    ensures i < n && states[n].replies[k].id == events[i].id
    ensures !events[i].NewRequest? && Possible(states[i].live, states[i].outstanding, events[i])
    ensures events[i].id in states[i].live && events[i].id !in states[i + 1].live
    ensures k == |states[i].replies| && Replied(states[i], events[i], states[i + 1])
    ensures states[n].replies[k] == states[i + 1].replies[k]
    decreases n
  {
    hide Stepped, AllOk, Replied, Possible;
    StepReplies(states[n - 1], events[n - 1], states[n]);
    if k < |states[n - 1].replies| {
      i := RepliesHaveCauses(states, events, n - 1, k);
    } else {
      i := n - 1;
    }
  }

  lemma StepLearns(b: Snapshot, e: Event, a: Snapshot, id: Id)
    requires Stepped(b, e, a) && id in a.live && a.live[id].collectionKey.Some?
    ensures id in b.live && a.live[id].request == b.live[id].request
    ensures || b.live[id].collectionKey == a.live[id].collectionKey
            || e == StoreKeyPreCheckDone(id, Succeeded, a.live[id].collectionKey.value)
  {
    hide Acceptable, Answers;
    if e.id != id || !Possible(b.live, b.outstanding, e) { OtherIdStays(b, e, a, id); }
  }

  /** The collection key of a live request is the one that its own pre-check gave. */
  lemma {:induction false} KeyWasGiven(states: seq<Snapshot>, events: seq<Event>, n: nat, id: Id) returns (i: nat)
    requires Trace(states, events) && n <= |events| && states[0].live == map[]
    requires id in states[n].live && states[n].live[id].collectionKey.Some?
    ensures i < n && events[i] == StoreKeyPreCheckDone(id, Succeeded, states[n].live[id].collectionKey.value)
    ensures id in states[i].live && states[i].live[id].request == states[n].live[id].request
    decreases n
  {
    hide Stepped, AllOk;
    StepLearns(states[n - 1], events[n - 1], states[n], id);
    if states[n - 1].live[id].collectionKey == states[n].live[id].collectionKey {
      i := KeyWasGiven(states, events, n - 1, id);
    } else {
      i := n - 1;
    }
  }

  lemma StepStores(b: Snapshot, e: Event, a: Snapshot, id: Id)
    requires Stepped(b, e, a) && id in a.live && id in a.outstanding && a.outstanding[id].StoringKey?
    requires a.live[id].collectionKey.Some?
    ensures id in b.live && a.live[id].request == b.live[id].request && a.live[id].collectionKey == b.live[id].collectionKey
    ensures || Get(b.outstanding, id) == Some(a.outstanding[id])
            || (&& e.JobDone? && e.id == id && e.code == Succeeded && a.outstanding[id].identifier == e.key.identifier
                && a.outstanding[id].key == if b.live[id].request.ImportStoredKey? then e.key.(imported := true) else e.key)
  {
    hide Acceptable, Answers;
    if e.id != id || !Possible(b.live, b.outstanding, e) { OtherIdStays(b, e, a, id); }
  }

  /** A key that is being stored is the one that its plugin made for this request. */
  lemma {:induction false} KeyWasMade(states: seq<Snapshot>, events: seq<Event>, n: nat, id: Id) returns (i: nat)
    requires Trace(states, events) && n <= |events| && states[0].live == map[]
    requires id in states[n].live && id in states[n].outstanding && states[n].outstanding[id].StoringKey?
    ensures i < n && events[i].JobDone? && events[i].id == id && events[i].code == Succeeded
    ensures id in states[i].live && states[i].live[id].request == states[n].live[id].request
    ensures states[i].live[id].collectionKey == states[n].live[id].collectionKey
    ensures var made := events[i].key;
            var s, r := states[n].outstanding[id], states[n].live[id].request;
            s.identifier == made.identifier && s.key == if r.ImportStoredKey? then made.(imported := true) else made
    decreases n
  {
    hide Stepped, AllOk;
    StoresUnderItsKey(states[n].live, states[n].pending, states[n].outstanding, id);
    StepStores(states[n - 1], events[n - 1], states[n], id);
    if Get(states[n - 1].outstanding, id) == Some(states[n].outstanding[id]) {
      i := KeyWasMade(states, events, n - 1, id);
    } else {
      i := n - 1;
    }
  }

  lemma StoresUnderItsKey(live: Lives, pending: Pendings, outstanding: Outstanding, id: Id)
    requires AllOk(live, pending, outstanding) && id in live && id in outstanding && outstanding[id].StoringKey?
    ensures live[id].collectionKey == Some(outstanding[id].collectionKey)
  {
    assert EntryOk(id, live[id], Get(pending, id), Get(outstanding, id));
    hide AwaitsStoring, Works;
  }

  /**
   What a success means, over all runs. A request is told of success only by the event that brings it; and one whose key
   is stored by another plugin than the one that makes it, only after its pre-check succeeded, its key was made, and that
   very key was stored, under the collection key that the pre-check gave.
   */
  lemma SuccessIsEarned(states: seq<Snapshot>, events: seq<Event>, k: nat) returns (checked: nat, made: nat, i: nat)
    requires Trace(states, events) && states[0].live == map[]
    requires |states[0].replies| <= k < |states[|events|].replies| && states[|events|].replies[k].code == Succeeded
    ensures i < |events| && events[i].id == states[|events|].replies[k].id && events[i].id in states[i].live
    ensures !events[i].NewRequest? && events[i].code == Succeeded
    ensures Concludes(states[i].live[events[i].id].request, events[i])
    ensures var id := events[i].id;
            var r := states[i].live[id].request;
            StoredElsewhere(r) ==>
              && checked < made < i && id in states[i].outstanding && states[i].outstanding[id].StoringKey?
              && var s := states[i].outstanding[id];
                 && events[checked] == StoreKeyPreCheckDone(id, Succeeded, s.collectionKey)
                 && events[made].JobDone? && events[made].id == id && events[made].code == Succeeded
                 && s.key == (if r.ImportStoredKey? then events[made].key.(imported := true) else events[made].key)
                 && id in states[checked].live && states[checked].live[id].request == r
                 && id in states[made].live && states[made].live[id].request == r
  {
    hide Stepped, AllOk;
    i := RepliesHaveCauses(states, events, |events|, k);
    checked, made := 0, 0;
    var id := events[i].id;
    if StoredElsewhere(states[i].live[id].request) {
      StoresUnderItsKey(states[i].live, states[i].pending, states[i].outstanding, id);
      made := KeyWasMade(states, events, i, id);
      checked := KeyWasGiven(states, events, made, id);
    }
  }
}
