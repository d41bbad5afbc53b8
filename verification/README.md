# Verification of the Sailfish secrets daemon

A Dafny model of the daemon `sailfishsecretsd`, with proofs about the parts of it that keep state.

- **Request queue** (`QueueSpec`, `QueueInvariant`, `QueueTheorems`, `RequestQueue`). The queue as a step system over
  its event queue, the requests being enqueued and the queued requests, for every timer, every handler and every start
  value of the id counter that both queues share; and the object itself, each method proved to be a step.
- **Crypto request processor** (`CryptoRequests`, `CryptoProcessor`). Requests that are parked while a Secrets
  sub-request runs, and continued when it completes, over every interleaving.
- **Metadata index** (`Transactions`, `MetadataTables`, `MetadataDb`, `PluginWrapper`). The counting transaction
  semaphore, the two tables with their constraints, the resynchronisation from plugin data, and the wrappers that change
  index and plugin together.
- **Durable data and the master lock** (`MajorityVote`, `DataProtector`, `DummyKeys`, `MasterLock`). Three copies in a
  fresh directory, read by majority, with every state on disk in between; and the lock record built on it.
- **Lock bracketing and database helpers** (`LockBracket`, `UnlockSemantics`, `SchemaUpgrade`, `ExpandQuery`). `Basics` and
  `Bytes` hold what several modules share.

`dafny verify dfyconfig.toml` checks the whole project.

Calls into plugins, SQL statements and file operations may fail at any point; which ones do is left open or, for a store,
an input. The plugin, the database and the vault count their failures (`faults`), so that contracts can say what holds
whatever fails, and exactly what happens when nothing does. The Secrets side records what it is asked (`asked`), so that a
sub-request that is promised was really made.

Assumptions, all about code outside the model:

- a failing plugin call leaves the plugin unchanged, a plugin stores secrets only in collections it has (standalone ones it
  keeps apart), and SQL BEGIN, COMMIT and ROLLBACK succeed (except in the schema upgrade, where they may fail too);
- which key opens a collection of a plugin does not change during a run of its wrapper (re-encryption is in `LockBracket`);
- plugin collection names are not empty and not the standalone collection in any letter case, which the request processor
  checks before it creates one;
- a pending handler completes exactly when it replies, a finished handler always completes, and a completion is for the
  request in progress that has its id, or for an id that is not queued (what each of these is needed for is proved);
- a Secrets sub-request fails at once or is completed at most once later;
- relocking a collection with an empty key succeeds unless the database is closed (lock bracketing only);
- deriving keys again with the plugin that was used gives the same keys, of 256 bits.

Where code and comment disagree the code is followed: the reader takes the first entry of a time-sorted listing, not the
oldest directory (the choice is left arbitrary); `rmdir` removes only empty directories; the result of `remove_if` is
discarded, so empty copies vote; and a negative `user_version` reads before the upgrade table.

## Model

| member | source | states |
|---|---|---|
| QueueTheorems.NoLostWakeup | daemon/requestqueue.cpp:201-274 | In every state any run reaches, a Pending or Finished request in the queue means that a handleRequests event is posted; this covers passes cut short by the timer, handlers that call requestFinished themselves, and completions for any id at any time. It is asked only that handlers of finished requests complete. |
| QueueTheorems.QuiescentMeansServed | daemon/requestqueue.cpp:145-274 | With no event left, nothing is parked, every queued request is with its handler, and every accepted request was dispatched. |
| QueueTheorems.DispatchIsFifo | daemon/requestqueue.cpp:145-274 | The requests given to the pending handler are, in order, a prefix of the accepted ones; Pending requests are a suffix of the queue in acceptance order. |
| QueueTheorems.FinishEnqueueFindsItsRequest | daemon/requestqueue.cpp:201-212 | The next finishEnqueueRequest event always finds its request: the "should never happen" branch is unreachable. |
| QueueTheorems.LiveRequestsAreAnswerable | daemon/requestqueue.cpp:52-199 | Live ids are distinct across both containers, and a D-Bus request is only ever queued with its reply message attached. |
| QueueTheorems.LateRepliesAreTheirOwn | daemon/requestqueue.cpp:214-274 | A reply sent after requestFinished carries the out-parameters of the completion issued for that same request, as long as completions are for the request that has the id. |
| QueueTheorems.FinishedIsAnsweredWithItsParams | daemon/requestqueue.cpp:214-274 | From any reachable state and however the run goes on: a request that is Finished stays in the queue with its out-parameters until it is answered, and it is answered with exactly these. |
| QueueTheorems.UncutPassAnswersFinished | daemon/requestqueue.cpp:230-274 | A pass that the timer does not cut short answers every request that is Finished when it begins, with the out-parameters it was finished with. |
| QueueTheorems.EveryAnswerIsDue | daemon/requestqueue.cpp:230-274 | At every step of every run, a request that was with its handler before is answered with what its completion reported, and any other by the handler it was just given to. |
| QueueTheorems.HandlersSeeWhatCallersSent | daemon/requestqueue.cpp:52-143 | Every queued request has the process id, the parameters and the crypto request id of the call that was accepted under its number. |
| QueueTheorems.CallsAreAccepted | daemon/requestqueue.cpp:52-181 | A client call is accepted exactly if its process id is known and an id is free, a crypto call exactly if an id is free; each is recorded as it was made. |
| QueueTheorems.TimerCutsPass | daemon/requestqueue.cpp:264-272 | After the turn at which time is up, a pass gives nothing more to a handler and answers nothing more. |
| QueueTheorems.EveryRequestIsInOnePlace | daemon/requestqueue.cpp:52-274 | Conservation: the parked, queued and retired requests together are exactly the accepted ones, each once; each parked id has exactly one finishEnqueueRequest event outstanding. |
| QueueTheorems.UncutPassLeavesNothingPending | daemon/requestqueue.cpp:230-274 | A pass that the timer does not cut short leaves no request Pending, whatever its handlers do. |
| QueueTheorems.DecliningHandlerStrandsRequest | daemon/requestqueue.cpp:230-274 | That demand is exact: if nothing else posts an event, a pass over any queue leaves no request waiting if and only if every handler of a finished request completes. |
| QueueTheorems.StrandingRun | daemon/requestqueue.cpp:52-274 | From every counter value a run reaches a state with a Finished request and no event, once such a handler declines. |
| QueueTheorems.StaleCompletionIsMistaken | daemon/requestqueue.cpp:214-228 | requestFinished looks at the id only: a completion meant for another request is taken for this one's, and the reply is the request's own exactly when the serials agree. |
| QueueTheorems.ReachableKeepsInvariant | daemon/requestqueue.cpp:52-274 | Every state reached by any run from any counter value satisfies the invariant the other theorems rest on. |
| QueueInvariant.StepKeeps | daemon/requestqueue.cpp:52-274 | Each step of the queue (a call, a crypto call, a completion, an event, a use of the shared counter by the other queue) keeps the invariant. |
| QueueInvariant.RunKeeps | daemon/requestqueue.cpp:52-274 | So does every allowed run. |
| QueueInvariant.ProbeIsFirstFree | daemon/requestqueue.cpp:145-173 | The wrapping search gives the first id after the counter that is not used, and gives up only after all others. |
| QueueInvariant.AllocationIsExact | daemon/requestqueue.cpp:145-181 | A queue is reported full if and only if every id other than the previous one is taken; an id handed out is not in use. |
| RequestQueues.RequestQueue.FindFreeId | daemon/requestqueue.cpp:149-181 | The search loop probes at most (used + 1) ids, agrees with the specification of the first free id, and fails only with at least 2^64 - 1 ids in use. |
| RequestQueues.RequestQueue.IsTaken | daemon/requestqueue.cpp:154-168 | The scan of both containers finds an id exactly when it is used. |
| RequestQueues.RequestQueue.EnqueueRequest | daemon/requestqueue.cpp:145-199 | Parks the request under the allocated id and posts its event, or changes nothing but the outcome: the step Enqueue. |
| RequestQueues.RequestQueue.HandleClientRequest | daemon/requestqueue.cpp:52-121 | A client call does what the step Submit says, including an unknown process id and a full queue. |
| RequestQueues.RequestQueue.HandleCryptoRequest | daemon/requestqueue.cpp:123-143 | A request from the crypto side does what the step SubmitForCrypto says. |
| RequestQueues.RequestQueue.FinishEnqueueing | daemon/requestqueue.cpp:201-212 | Moves the parked request to the end of the queue and posts handleRequests. |
| RequestQueues.RequestQueue.Finish | daemon/requestqueue.cpp:214-228 | The first request with the id becomes Finished with the out-parameters and handleRequests is posted; an unknown id changes nothing. |
| RequestQueues.RequestQueue.TakeOneTurn | daemon/requestqueue.cpp:237-272 | One round of the loop over the queue in place. A completed handler leads to one answer: by the handler itself for a Pending request, with the recorded out-parameters for a Finished one. |
| RequestQueues.RequestQueue.HandleAll | daemon/requestqueue.cpp:230-274 | The whole pass with erasures in place equals the recursive specification of a pass, for any timer. |
| RequestQueues.RequestQueue.ProcessEvent | daemon/requestqueue.cpp:201-274 | Delivering the next event is a step of the system and keeps the invariant. |
| CryptoProcessors.HandleAll | daemon/CryptoImpl/cryptorequestprocessor.cpp:397-3184 | Over any interleaving of new requests, plugin threads and completions of sub-requests that were made: every event does what one step may do, every live request has one job, or one outstanding sub-request with arguments and a parked list that belong to the request, or is stalled; a stalled request never goes on and is never replied to. |
| CryptoProcessors.Handle | daemon/CryptoImpl/cryptorequestprocessor.cpp:397-3184 | Each event touches one request only and either takes it to its next phase, with the same parameters, or replies once: failures as they are, success only by the event that can bring it. |
| CryptoProcessors.SuccessIsEarned | daemon/CryptoImpl/cryptorequestprocessor.cpp:587-1088 | Over all runs: a request is told of success only by the event that brings it; one whose key is stored by another plugin only by the completion of its store sub-request, after its pre-check succeeded and then its key was made, and what was stored is that key, under the collection key that the pre-check gave. |
| CryptoProcessors.RepliesHaveCauses | daemon/CryptoImpl/cryptorequestprocessor.cpp:397-3184 | Every reply of a run was made at one step, by an event for a request that was live until then. |
| CryptoProcessors.KeyWasGiven | daemon/CryptoImpl/cryptorequestprocessor.cpp:464-546 | The collection key a request works with is the one its own pre-check gave, over prompts and jobs in between. |
| CryptoProcessors.KeyWasMade | daemon/CryptoImpl/cryptorequestprocessor.cpp:618-1067 | A key that is being stored is the one that the plugin made for this very request. |
| CryptoProcessors.FinishJob | daemon/CryptoImpl/cryptorequestprocessor.cpp:618-1067 | The end of a plugin thread is such a step. |
| CryptoProcessors.CompleteUsing | daemon/CryptoImpl/cryptorequestprocessor.cpp:2677-3055 | So is the completion of a fetch, of the check before a key is used, and of the requests that are only answered. |
| CryptoProcessors.CompletePreCheck | daemon/CryptoImpl/cryptorequestprocessor.cpp:2900-2957 | So is the completion of the check before a key is stored. |
| CryptoProcessors.CompleteStoring | daemon/CryptoImpl/cryptorequestprocessor.cpp:2960-3118 | So is the completion of a prompt and of a store. |
| CryptoProcessors.RepliedAtMostOnce | daemon/CryptoImpl/cryptorequestprocessor.cpp:397-3184 | requestFinished is called at most once per start of a request, and has been called exactly when the request is no longer live. |
| CryptoProcessors.LiveOrStalled | daemon/CryptoImpl/cryptorequestprocessor.cpp:397-1288 | What is to come for a live request: its job, or the completion of the sub-request outstanding for it, whose arguments are the request's and whose completion decodes the parked list; parked with nothing outstanding is only the import of a key into another plugin. |
| CryptoProcessors.StalledIsLeftAlone | daemon/CryptoImpl/cryptorequestprocessor.cpp:1026-1040 | Nothing that can happen (a new request, a job that was started, a sub-request that was made) concerns a request that is parked with nothing outstanding. |
| CryptoProcessors.RequestProcessor.JobCompleted | daemon/CryptoImpl/cryptorequestprocessor.cpp:618-1067 | Exactly what follows a plugin thread, by its kind, its result and the answer of the Secrets side: which reply is made, which sub-request with which arguments, and that a request is parked with nothing asked if and only if it is an import for another plugin that failed for its passphrase while interaction was allowed. |
| CryptoProcessors.RequestProcessor.KeyGenerated | daemon/CryptoImpl/cryptorequestprocessor.cpp:618-647 | A generated key is handed to the Secrets side under its own identifier with the collection key; the client is told a failure of the generation or of the call as it is, and nothing while the call is pending. |
| CryptoProcessors.RequestProcessor.KeyImported | daemon/CryptoImpl/cryptorequestprocessor.cpp:785-815 | A wrong passphrase leads to a prompt that is really made, when interaction is allowed, and its refusal is replied; anything else is replied as it is. |
| CryptoProcessors.RequestProcessor.KeyImportedForStorage | daemon/CryptoImpl/cryptorequestprocessor.cpp:1021-1067 | For a key to be stored elsewhere the request is parked without asking anybody exactly when the passphrase was wrong and interaction allowed; an imported key is handed on for storing, and a failure of either is replied as it is. |
| CryptoProcessors.RequestProcessor.PromptForDerivation | daemon/CryptoImpl/cryptorequestprocessor.cpp:504-546 | The user is asked for the derivation input; the request waits exactly if that was answered Pending, and its refusal is replied otherwise. |
| CryptoProcessors.RequestProcessor.Park | daemon/CryptoImpl/cryptorequestprocessor.cpp:443-456 | A request may be parked only with the list that belongs to the sub-request made for it. |
| CryptoProcessors.RequestProcessor.AskAndPark | daemon/CryptoImpl/cryptorequestprocessor.cpp:431-461 | Parked exactly when the sub-request was answered Pending, and then that sub-request is outstanding. |
| CryptoProcessors.DecodeUse | daemon/CryptoImpl/cryptorequestprocessor.cpp:2767-2897 | From the list parked before the use-key check, the slot decodes exactly the parameters of the request, never from an empty list; a request of another type cannot be found there. |
| CryptoProcessors.DecodeFetch | daemon/CryptoImpl/cryptorequestprocessor.cpp:2678-2764 | The same for the list parked while a key is fetched: the request with the fetched key in place of the reference. |
| CryptoProcessors.DecodeFetchPid | daemon/CryptoImpl/cryptorequestprocessor.cpp:2740-2757 | The caller of a cipher session, which travels in the list, is the one of the request. |
| CryptoProcessors.DecodePreCheck | daemon/CryptoImpl/cryptorequestprocessor.cpp:2900-2957 | The same for the two requests that store a key. |
| CryptoProcessors.DecodeUserInput | daemon/CryptoImpl/cryptorequestprocessor.cpp:3058-3118 | The same for the three requests that prompt, with the user's input as derivation input and the collection key learned before the prompt. |
| CryptoProcessors.RequestProcessor.UseKeyPreCheckCompleted | daemon/CryptoImpl/cryptorequestprocessor.cpp:2767-2897 | The job that follows works on exactly the request that was made, with the collection key; a failed check is replied; an unknown id changes nothing. |
| CryptoProcessors.RequestProcessor.StoredKeyCompleted | daemon/CryptoImpl/cryptorequestprocessor.cpp:2678-2764 | A fetched key is returned cut down to the components asked for and allowed, or used in place of the reference by the job that follows; failures and an unreadable key are replied. |
| CryptoProcessors.RequestProcessor.StoreKeyPreCheckCompleted | daemon/CryptoImpl/cryptorequestprocessor.cpp:464-546 | Exactly what follows the check: a failure is replied with the template key, a prompt is made if and only if the key is to be derived with interaction, and otherwise the job has the collection key. |
| CryptoProcessors.RequestProcessor.UserInputCompleted | daemon/CryptoImpl/cryptorequestprocessor.cpp:3058-3118 | Exactly what follows the prompt: a failure is replied; the input becomes the passphrase or the derivation input of the job, which has the collection key learned before. |
| CryptoProcessors.RequestProcessor.StoreKeyCompleted | daemon/CryptoImpl/cryptorequestprocessor.cpp:2960-2990 | One reply: the generated key that was stored, or the template of an import, without its private and secret parts. |
| CryptoProcessors.RequestProcessor.AnswerCompleted | daemon/CryptoImpl/cryptorequestprocessor.cpp:2993-3055 | The slots that only reply: one reply with the result; a completion of the wrong type is impossible. |
| CryptoProcessors.RequestProcessor.UseKey | daemon/CryptoImpl/cryptorequestprocessor.cpp:1409-1487 | The continuations with a key or a collection key: a failure is replied, otherwise the job runs on the decoded request. |
| CryptoProcessors.RequestProcessor.GenerateKey | daemon/CryptoImpl/cryptorequestprocessor.cpp:587-653 | Generation goes to the crypto plugin itself or to a job whose key is stored afterwards, depending on the storage plugin. |
| CryptoProcessors.RequestProcessor.ImportForStoring | daemon/CryptoImpl/cryptorequestprocessor.cpp:947-1069 | The same for an import with a passphrase. |
| CryptoProcessors.RequestProcessor.StartImport | daemon/CryptoImpl/cryptorequestprocessor.cpp:756-844 | An import runs, or fails at once for an unknown plugin. |
| CryptoProcessors.RequestProcessor.StartUse | daemon/CryptoImpl/cryptorequestprocessor.cpp:1291-1406 | sign, verify, encrypt, decrypt and initializeCipherSession: which errors come at once, that a key with the parts the operation needs is used as it is, and otherwise which sub-request is made. |
| CryptoProcessors.RequestProcessor.StartStoring | daemon/CryptoImpl/cryptorequestprocessor.cpp:397-461 | generateStoredKey and importStoredKey: the checks in order, each with its error, then the pre-check of the template's identifier, whose answer is the answer. |
| CryptoProcessors.RequestProcessor.StartPlugin | daemon/CryptoImpl/cryptorequestprocessor.cpp:756-819 | importKey and the requests that run one job: an unknown plugin is refused at once, otherwise the job runs on the request as it was made. |
| CryptoProcessors.RequestProcessor.StartStoredKey | daemon/CryptoImpl/cryptorequestprocessor.cpp:1091-1153 | storedKey: unknown storage is refused at once, a key that is there at once is returned cut down, otherwise a job or a fetch is under way. |
| CryptoProcessors.RequestProcessor.StartFetch | daemon/CryptoImpl/cryptorequestprocessor.cpp:1358-1405 | A referenced key of another plugin is asked for; the request waits for it, goes on with it if it is there, or is refused, as the answer says. |
| CryptoProcessors.RequestProcessor.StartAnswer | daemon/CryptoImpl/cryptorequestprocessor.cpp:1175-1245 | deleteStoredKey, storedKeyIdentifiers and the lock requests: which sub-request is made for each, and that a request waits exactly if it was answered Pending. |
| CryptoProcessors.StartRequest | daemon/CryptoImpl/cryptorequestprocessor.cpp:397-2675 | A request that is not well-formed or names unknown plugins is refused without asking anybody; any other runs a job or gets the answer of the one sub-request made for it; Pending leaves it live with its own parameters, any other answer leaves no trace. |
| CryptoProcessors.UseParameters | daemon/CryptoImpl/cryptorequestprocessor.cpp:1344-1357 | The list parked for the use-key check is the one its completion decodes, for the arguments that are passed. |
| CryptoProcessors.FetchParameters | daemon/CryptoImpl/cryptorequestprocessor.cpp:1362-1377 | The list parked while a key is fetched is the one its completion decodes. |
| CryptoProcessors.RequestProcessor.Take | daemon/CryptoImpl/cryptorequestprocessor.cpp:2685-2691 | Taking a parked request leaves nothing to come for it and touches no other. |
| CryptoProcessors.RequestProcessor.Finish | daemon/CryptoImpl/cryptorequestprocessor.cpp:618-626 | One reply; the request is no longer live. |
| CryptoRequests.Nullified | daemon/CryptoImpl/cryptorequestprocessor.cpp:35-62 | A part of a stored key is given back only if it was asked for and the key allows it; with everything asked for and allowed the key is given back whole. |
| CryptoRequests.WithoutPrivateData | daemon/CryptoImpl/cryptorequestprocessor.cpp:660-676 | A key that was stored comes back without its private and secret parts, and with everything else. |
| CryptoRequests.OperationOf | daemon/CryptoImpl/cryptorequestprocessor.cpp:1335-1340 | The operation that the Secrets side is asked to check is the one of the request. |
| CryptoRequests.WithKey | daemon/CryptoImpl/cryptorequestprocessor.cpp:1409-1443 | The request that goes on with a fetched key differs from the one made in its key only. |
| Transactions.SqlAlternates | database/database.cpp:393-438 | For every sequence of calls, matched or not, the SQL issued alternates BEGIN and one COMMIT or ROLLBACK, and a transaction is open exactly when the counter is positive. |
| Transactions.OutermostEndDecides | database/database.cpp:393-438 | For every bracketed, matched sequence the outermost end alone decides: its commit keeps the last write, its rollback restores the database, whatever inner calls did; the counter returns to zero. |
| Transactions.InnerEndsDoNothing | database/database.cpp:393-438 | Inside an open transaction inner commits keep nothing and inner rollbacks undo nothing, at any depth. |
| Transactions.StepKeepsInStep | database/database.cpp:393-438 | Each call keeps counter and SQL in step. |
| Transactions.Database.BeginTransaction | database/database.cpp:393-408 | Begins only at zero; the answer is true exactly at zero and one, and the counter moves in any case. |
| Transactions.Database.CommitTransaction | database/database.cpp:410-423 | Commits only from one; false exactly at zero. |
| Transactions.Database.RollbackTransaction | database/database.cpp:425-438 | Rolls back only from one; false exactly at zero. |
| SchemaUpgrade.Connection.UpgradeDatabase | database/database.cpp:169-179 | One transaction: success exactly when every step up to the target succeeds and raises the version, and then the result is committed and at or above the target; otherwise the database is as it was. At most (target - start) rounds. |
| SchemaUpgrade.Connection.ExecuteUpgradeStatements | database/database.cpp:91-151 | The loop does what the recursive upgrade says, reads nothing past the sentinel slot, and leaves the table to the front exactly for a negative version. |
| SchemaUpgrade.Connection.ExecuteOperation | database/database.cpp:114-127 | One entry: its function, then its statements, up to the first that fails. |
| SchemaUpgrade.Connection.ExecuteAll | database/database.cpp:121-126 | The statement loop stops at the first failure. |
| SchemaUpgrade.LengthOf | database/database.cpp:79-89 | Counts the entries before the first one without statements. |
| SchemaUpgrade.EmptySentinelFails | database/database.cpp:111-140 | A database that lands on the empty slot after the last entry is never upgraded. |
| SchemaUpgrade.UpgradedIsAtTarget | database/database.cpp:111-151 | An upgrade never ends below the target or below the version it started from. |
| SchemaUpgrade.StatementsRunInOrder | database/database.cpp:121-126 | The statements of an entry succeed with some content if and only if there is a sequence of contents in which each statement, in its order, leads to the next; they fail if and only if such a sequence breaks off. |
| SchemaUpgrade.FunctionRunsFirst | database/database.cpp:114-127 | An entry is its function, if it has one, followed by its statements. |
| SchemaUpgrade.UpgradesAreClimbs | database/database.cpp:111-140 | A database is upgraded to some content if and only if there is a sequence of contents up to the target in which the entry for each version leads to the next, higher one. |
| ExpandQuery.ExpandPositional | database/database.cpp:508-526 | The in-place rewriting equals one left-to-right substitution on the original text: values are never scanned again, and markers beyond the values stay. |
| ExpandQuery.ExpandNamed | database/database.cpp:528-562 | The same for named markers, with missing names empty and strings quoted; the loop ends because length minus index falls. |
| ExpandQuery.NameBecomesValue | database/database.cpp:541-559 | The first name in a query becomes its value: a string in quotes, another value as it is shown, nothing if it is not bound; the rest is expanded on its own. |
| ExpandQuery.SkipToMarker | database/database.cpp:508-526 | Text without markers is copied. |
| ExpandQuery.PositionalStep | database/database.cpp:513-523 | One replacement advances the substitution by one marker and one value. |
| ExpandQuery.NamedStep | database/database.cpp:534-559 | One replacement advances the substitution by one marker with its letters. |
| ExpandQuery.CountLetters | database/database.cpp:541-545 | The inner loop finds the whole run of letters after the marker. |
| MetadataTables.SyncIsExact | daemon/SecretsImpl/metadatadb.cpp:781-900 | Resynchronised tables hold the plugin's collections and the standalone one; unlocked collections hold exactly the plugin's secrets, locked ones those already known; rows that remain keep every field. |
| MetadataTables.SyncIsIdempotent | daemon/SecretsImpl/metadatadb.cpp:781-900 | A second resynchronisation against the same plugin changes nothing. |
| MetadataTables.SyncKeepsLinks | daemon/SecretsImpl/metadatadb.cpp:36-62 | Resynchronisation keeps the foreign key. |
| MetadataDbs.MetadataDb.InitializeCollectionsFromPluginData | daemon/SecretsImpl/metadatadb.cpp:781-824 | Both loops together give the specified collections, unless a statement fails, which is reported. |
| MetadataDbs.MetadataDb.InitializeSecretsFromPluginData | daemon/SecretsImpl/metadatadb.cpp:826-900 | The grouping, deletion and insertion loops together give the specified secrets; a failure is reported. |
| MetadataDbs.MetadataDb.Resynchronise | daemon/SecretsImpl/pluginwrapper.cpp:584-600 | Both steps in one transaction: without a failing statement the committed index mirrors what the plugin reports, and a failing one is told; the transaction counter returns to zero. |
| MetadataDbs.GroupByCollection | daemon/SecretsImpl/metadatadb.cpp:847-851 | Grouping identifiers by collection loses and adds none, and keeps names distinct. |
| MetadataDbs.MetadataDb.InsertCollectionMetadata | daemon/SecretsImpl/metadatadb.cpp:307-348 | Succeeds exactly if the statement does not fail and the name is not there; then the tables have that row more and no other change. |
| MetadataDbs.MetadataDb.InsertSecretMetadata | daemon/SecretsImpl/metadatadb.cpp:534-581 | Succeeds exactly if the statement does not fail, the pair is not there and its collection is; then the tables have that row more. |
| MetadataDbs.MetadataDb.DeleteCollectionMetadata | daemon/SecretsImpl/metadatadb.cpp:469-494 | The collection goes, and along the foreign key its secrets; every other row stays as it is. |
| MetadataDbs.MetadataDb.DeleteSecretMetadata | daemon/SecretsImpl/metadatadb.cpp:629-657 | Deletes the one row. |
| MetadataDbs.MetadataDb.CollectionNames | daemon/SecretsImpl/metadatadb.cpp:350-382 | Lists each collection once, without the standalone one and empty names. |
| PluginWrappers.Run | daemon/SecretsImpl/pluginwrapper.cpp:333-945 | Index agreement over all runs: after any operations, with any failures, an initialized wrapper has the same collections and secrets in its index and its plugin, outside the standalone collection, and no open transaction. A run in which nothing fails gives exactly the ideal one, on plain values. |
| PluginWrappers.Perform | daemon/SecretsImpl/pluginwrapper.cpp:67-1014 | Each operation keeps that agreement and never takes the wrapper out of the initialized state; without a fault it is the ideal operation. |
| PluginWrappers.PerformOnData | daemon/SecretsImpl/pluginwrapper.cpp:333-1014 | The same for the operations on collections, secrets and keys. |
| PluginWrappers.PluginWrapper.CreateCollection | daemon/SecretsImpl/pluginwrapper.cpp:759-813 | All or nothing: index and plugin gain the collection, or neither changes. Without a fault it is refused exactly for a lock or an existing name, and the new collection is left locked exactly if its semantic asks for it. |
| PluginWrappers.PluginWrapper.RemoveCollection | daemon/SecretsImpl/pluginwrapper.cpp:815-849 | All or nothing: the collection and its secrets go from both, or neither changes; without a fault only a lock stands in the way. |
| PluginWrappers.PluginWrapper.SetSecret | daemon/SecretsImpl/pluginwrapper.cpp:851-898 | All or nothing for a secret, a standalone one of plain storage included; without a fault it succeeds exactly if nothing is locked, the collection is there and the secret is not. |
| PluginWrappers.PluginWrapper.SetStandaloneSecret | daemon/SecretsImpl/pluginwrapper.cpp:947-1014 | A standalone secret changes the index alone; the errors are exact. |
| PluginWrappers.PluginWrapper.RemoveSecret | daemon/SecretsImpl/pluginwrapper.cpp:900-945 | All or nothing for the removal; the errors are exact. |
| PluginWrappers.PluginWrapper.PrepareToStoreKey | daemon/CryptoImpl/cryptopluginwrapper.cpp:80-157 | Success leaves one transaction open that holds the new row; failure leaves none and no row; without a fault it succeeds exactly if the plugin can store keys, the collection is or can be unlocked with the key given, and the secret is new. |
| PluginWrappers.PluginWrapper.UnlockForKey | daemon/CryptoImpl/cryptopluginwrapper.cpp:86-125 | The part of it that unlocks: only the lock of that collection may change, and the key given decides. |
| PluginWrappers.PluginWrapper.StoreKey | daemon/CryptoImpl/cryptopluginwrapper.cpp:159-233 | All or nothing for a generated or imported key, the collection is locked afterwards as it was before, and without a fault the outcome is exact. |
| PluginWrappers.PluginWrapper.KeyNames | daemon/CryptoImpl/cryptopluginwrapper.cpp:34-69 | The recorded key names followed by those only the plugin knows, none twice. |
| PluginWrappers.PluginWrapper.Survey | daemon/SecretsImpl/pluginwrapper.cpp:555-580 | What is gathered from the plugin: all secrets of the collections that are not locked, and which are; without a fault exactly these. |
| PluginWrappers.PluginWrapper.Synchronise | daemon/SecretsImpl/pluginwrapper.cpp:547-600 | If no statement fails the index mirrors what the plugin tells, and the wrapper is initialized exactly if then no collection was locked; without a fault at all, what the plugin tells is what it holds. |
| PluginWrappers.PluginWrapper.Initialize | daemon/SecretsImpl/pluginwrapper.cpp:531-601 | Once initialized nothing is done again. Otherwise an open database and an unlocked plugin that answers lead to an index that mirrors the plugin unless a statement fails, and the wrapper is initialized if and only if none failed and no collection was locked; without a fault when the database opens and what is answered are exact too. |
| PluginWrappers.PluginWrapper.OpenDatabase | daemon/SecretsImpl/metadatadb.cpp:105-151 | With a wrong key nothing opens; with the right one and without a fault it does, and then the notional standalone row is there and nothing else has changed. |
| PluginWrappers.PluginWrapper.SetEncryptionKey | daemon/SecretsImpl/pluginwrapper.cpp:668-685 | Only the lock of that collection changes, as the key says; without a fault an open index then mirrors the plugin, and the wrapper is initialized exactly if nothing is locked. |
| PluginWrappers.PluginWrapper.MasterUnlock | daemon/SecretsImpl/pluginwrapper.cpp:80-91 | A closed database opens only with the key it is encrypted with; a key of another length than 64 is refused; without a fault it opens exactly then, and the index mirrors an unlocked plugin. |
| PluginWrappers.PluginWrapper.SetMasterLockKey | daemon/SecretsImpl/pluginwrapper.cpp:93-104 | The key of the database changes to the new one exactly if the old one opens it and both have 64 digits, unless something fails; the index then mirrors an unlocked plugin. |
| PluginWrappers.PluginWrapper.UnlockDatabase | daemon/SecretsImpl/metadatadb.cpp:219-255 | The key that opens a closed database is its own, or the one it is created with; without a fault it does. |
| PluginWrappers.PluginWrapper.SetPluginLock | daemon/SecretsImpl/pluginwrapper.cpp:116-133 | Only the plugin's own lock changes; once it is unlocked, and without a fault, an open index mirrors it. |
| PluginWrappers.SyncedAgrees | daemon/SecretsImpl/pluginwrapper.cpp:567-600 | A resynchronisation with no locked collection establishes the agreement. |
| PluginWrappers.CreatedAgree | daemon/SecretsImpl/pluginwrapper.cpp:787-804 | Creating on both sides keeps the agreement and the foreign key. |
| PluginWrappers.RemovedAgree | daemon/SecretsImpl/pluginwrapper.cpp:830-849 | So does removing on both sides, with the cascade. |
| PluginWrappers.AddedAgree | daemon/SecretsImpl/pluginwrapper.cpp:878-898 | So does adding a secret on both sides. |
| PluginWrappers.SecretRemovedAgree | daemon/SecretsImpl/pluginwrapper.cpp:925-945 | So does removing one. |
| MajorityVote.Vote | daemon/SecretsImpl/dataprotector.cpp:156-184 | For any number of copies: a value is returned exactly when it is a strict majority, and otherwise there is none. |
| MajorityVote.VerdictIsUnique | daemon/SecretsImpl/dataprotector.cpp:156-184 | The verdict is unique and the same for every order of the copies. |
| MajorityVote.MoveEmptyBack | daemon/SecretsImpl/dataprotector.cpp:147-149 | The discarded remove_if is a permutation: empty copies still vote. |
| MajorityVote.CountOccurrences | daemon/SecretsImpl/dataprotector.cpp:160-168 | Each copy is counted once, at the first place that holds the same bytes. |
| MajorityVote.MaximumIndex | daemon/SecretsImpl/dataprotector.cpp:171-176 | The place with the most occurrences. |
| DataProtectors.DataProtector.GetData | daemon/SecretsImpl/dataprotector.cpp:66-186 | The cached data, nothing, or the vote over one directory; on the way exactly the other directories go that are empty and can be removed. |
| DataProtectors.DataProtector.DropEmpty | daemon/SecretsImpl/dataprotector.cpp:94-100 | The loop over the other entries removes exactly the empty ones that can be removed. |
| DataProtectors.ReadDirectory | daemon/SecretsImpl/dataprotector.cpp:102-187 | One directory reads as its majority, and as irretrievable exactly when no file opens or there is none. |
| DataProtectors.DataProtector.PutData | daemon/SecretsImpl/dataprotector.cpp:189-263 | A store in which nothing fails into a fresh directory succeeds and leaves three copies of the bytes there and nothing else; it succeeds if and only if the name is fresh and the failing operation does not come to bear. Otherwise how it ends and what it leaves on disk follow exactly from what was there and from that operation, up to the order in which old directories go. The copies are committed one after the other, and every state on the way is safe to find after a crash. |
| DataProtectors.SurvivalIsExact | daemon/SecretsImpl/dataprotector.cpp:189-263 | A value held before a store is held after it if and only if a condition on the failing operation holds: when other bytes are stored, exactly when the new directory could not be made. |
| DataProtectors.NewDirectoryReads | daemon/SecretsImpl/dataprotector.cpp:205-247 | The new directory reads as the new bytes exactly if a copy was committed, and as nothing otherwise. |
| DataProtectors.FailedStoreReads | daemon/SecretsImpl/dataprotector.cpp:189-263 | Until a copy is committed, a failed store adds nothing that can be read. |
| DataProtectors.CommittedMayBeRead | daemon/SecretsImpl/dataprotector.cpp:189-263 | From then on a reader may get the new bytes although the store failed. |
| DataProtectors.HalfWrittenReads | daemon/SecretsImpl/dataprotector.cpp:236-247 | While copies are being committed the new directory reads as empty exactly until the second one is in place. |
| DataProtectors.HoldsIsRead | daemon/SecretsImpl/dataprotector.cpp:66-187 | A folder that holds a value is read as that value, whatever directory is picked, and is not changed by reading. |
| DataProtectors.StoringIsCrashSafe | daemon/SecretsImpl/dataprotector.cpp:189-263 | Any mixture of old, partly removed, and partly written directories reads as an old value, the new one, nothing, or irretrievable. |
| DataProtectors.StoreCrashLoad | daemon/SecretsImpl/dataprotector.cpp:66-263 | Crash atomicity: after a crash at any step, whatever directory a fresh reader picks, it gets the old bytes, the new bytes, nothing, or irretrievable; never anything else; and a state that holds one of the two values is read as that. |
| DataProtectors.StoreCrashWindows | daemon/SecretsImpl/dataprotector.cpp:203-262 | And each of these does occur: in every faultless store over another value some state on the way may be read as the old bytes, one as the new ones, and one as nothing. |
| DataProtectors.StoreDamageLoad | daemon/SecretsImpl/dataprotector.cpp:66-263 | Round trip and single-fault tolerance: from any prior contents a store that is not struck by a fault succeeds, and a successful one is read back, also after one of the three files is altered, emptied, made unreadable or removed. |
| DataProtectors.OneFaultIsTolerated | daemon/SecretsImpl/dataprotector.cpp:147-184 | Two intact copies of three outvote anything. |
| DataProtectors.RemovalSafetyIsExact | daemon/SecretsImpl/dataprotector.cpp:250-257 | While a directory is being removed only allowed values can be read if and only if every readable file holds one: the premise of crash safety is exact. |
| DataProtectors.ReadingIgnoresOrder | daemon/SecretsImpl/dataprotector.cpp:105-184 | What a directory reads as does not depend on the order of its files. |
| DummyKeys.SpecifyDummyKeys | daemon/SecretsImpl/secrets.cpp:50-72 | The loops in place give the specified keys of 64 and 32 bytes and a check text of 43 bytes, byte by byte: both keys are fill bytes under the code, one under its hex form, and the check text is under the first key. |
| DummyKeys.MaskInPlace | daemon/SecretsImpl/secrets.cpp:57-67 | The XOR loop masks as far as both arrays reach. |
| DummyKeys.HexDigitsAreLowerCase | daemon/SecretsImpl/secrets.cpp:55-60 | The hex form has the digits 0 to 9 and a to f. |
| DummyKeys.SameCheckText | daemon/SecretsImpl/secrets.cpp:50-72 | Two lock codes give the same check text if and only if their hex forms, padded with zero bytes, agree on the first 43 positions. |
| DummyKeys.ShortCodesAreToldApart | daemon/SecretsImpl/secrets.cpp:50-72 | So all codes of at most 21 bytes are told apart. |
| DummyKeys.LongCodesCollide | daemon/SecretsImpl/secrets.cpp:50-72 | And the bound is sharp: longer codes that differ late are not. |
| MasterLocks.MasterLock.Initialize | daemon/SecretsImpl/secrets.cpp:748-805 | A failure changes neither keys nor flags; while unlocked the keys are those of the record last matched or stored, derived by the plugin that the record names. When the folder holds the record: unlocking succeeds exactly for a code whose ciphertext by that plugin is the stored one, storing exactly when no operation fails, and the record is held afterwards if and only if the call does not break it. Locking, first use and a change of code fail only for want of the plugin or for a failing operation. |
| MasterLocks.MasterLock.TestLockCode | daemon/SecretsImpl/secrets.cpp:817-838 | When the folder holds the record, accepts exactly the codes whose ciphertext, derived by the plugin that the record names, is the stored one; in any case only a code that fits what could be read; the record is left alone. |
| MasterLocks.KeysAreDerived | daemon/SecretsImpl/secrets.cpp:762-781 | Which keys are used, told by the derivation alone: those of the named plugin if one is named, the dummy keys under the placeholder, and without a name those of the default plugin, or for initialize the dummy keys if it has none. |
| MasterLocks.AnswersAreDerived | daemon/SecretsImpl/secrets.cpp:748-838 | Both answers about a record agree with the ciphertext derived by the plugin that it names, and with each other if one is named. |
| MasterLocks.MasterLock.MakeKeys | daemon/SecretsImpl/secrets.cpp:761-781 | Generating keys with the fallback to the dummy keys gives the keys initialize is specified to use. |
| MasterLocks.MasterLock.MakeKeysToTest | daemon/SecretsImpl/secrets.cpp:826-832 | The same for testLockCode, which does not fall back. |
| MasterLocks.MasterLock.SetThenTest | daemon/SecretsImpl/secrets.cpp:748-838 | Whatever the folder was like: a code is set unless an operation fails or the recorded plugin is gone; once it is, another one is accepted exactly when it derives the same ciphertext, and so is the code itself, which it always does unless the new record names no plugin. |
| MasterLocks.Run | daemon/SecretsImpl/secrets.cpp:748-978 | Master lock invariant over all runs, from any folder: while unlocked the keys in memory are those of the record; and at each step at which the folder holds the record it goes on doing so if and only if that step does not break it. |
| MasterLocks.HeldThroughout | daemon/SecretsImpl/secrets.cpp:748-978 | So the stored ciphertext is the one of the cached keys throughout a run without such a step. |
| MasterLocks.FailedChange | daemon/SecretsImpl/secrets.cpp:748-868 | A change of code that fails leaves the lock open with the old keys; if the folder still holds the old record, that decides which code is accepted; the new code is accepted only if the old record accepts it or a copy of the new one was committed, and then the new record may be read. |
| MasterLocks.StoreCrashUnlock | daemon/SecretsImpl/secrets.cpp:748-956 | After a crash at any step of a store the daemon opens with the old record or the new one, or takes the folder for unused and writes a record for any code: only if a directory looks empty, or is unreadable and such folders are reset. A folder that holds one of the two is opened by exactly the codes that unlock it. |
| MasterLocks.RecordTells | daemon/SecretsImpl/secrets.cpp:817-838 | A record accepts exactly the codes that give its ciphertext with the plugin it names. |
| MasterLocks.OwnCode | daemon/SecretsImpl/secrets.cpp:748-838 | The code that gave a record gives its ciphertext again if and only if the record names a plugin or the default plugin agrees. |
| MasterLocks.MasterLock.Resolve | daemon/SecretsImpl/secrets.cpp:752-793 | Reading, deriving, and comparing or storing, with everything initialize promises about the record. |
| MasterLocks.MasterLock.Settle | daemon/SecretsImpl/secrets.cpp:783-793 | The record is compared with the keys or replaced by theirs, as the mode asks; what is left of it after a failure is stated exactly. |
| MasterLocks.MasterLock.Compare | daemon/SecretsImpl/secrets.cpp:902-956 | The comparison with the record, or the first writing of it. |
| MasterLocks.MasterLock.ReadRecord | daemon/SecretsImpl/secrets.cpp:870-900 | A held record is what is read, and the folder is not changed; otherwise it fails only for a folder from which nothing can be read, and only what could be read before can be read after, unless an unreadable folder is reset. |
| MasterLocks.MasterLock.WriteRecord | daemon/SecretsImpl/secrets.cpp:840-868 | Success leaves the new record; after a failure the old one is held if and only if it survives the operation that failed. |
| MasterLocks.MasterLock.CacheKeys | daemon/SecretsImpl/secrets.cpp:958-978 | The buffer allocated for the first keys holds every later pair exactly, without overrun. |
| MasterLocks.PlaceholderRecordTells | daemon/SecretsImpl/secrets.cpp:762-783 | Changing the code while no derivation plugin is recorded writes an empty plugin name: the new code is then accepted if and only if the default plugin derives the dummy check text. |
| MasterLocks.UnlockingCodeIsAccepted | daemon/SecretsImpl/secrets.cpp:748-838 | A code that unlocks is also accepted, if and only if the record names a plugin or the default plugin agrees with it. |
| MasterLocks.RecordRoundTrip | daemon/SecretsImpl/secrets.cpp:862-899 | Plugin name and ciphertext are read back from a record as they were written. |
| LockBracket.Vault.UnlockAndAct | daemon/SecretsImpl/pluginfunctionwrappers.cpp:990-1231 | The four compound operations: the lock is left as found, except a locked collection with a keep-unlocked semantic that could be opened; a wrong key changes no secret; success does exactly the action, and without a fault it and each error come exactly when they should. |
| LockBracket.Vault.OpenWith | daemon/SecretsImpl/pluginfunctionwrappers.cpp:996-1025 | Their first half: the collection is opened by its key only, and is as it was if it is not opened. |
| LockBracket.Vault.UseKey | daemon/CryptoImpl/cryptopluginfunctionwrappers.cpp:230-549 | The five crypto operations leave every collection as it was, and reach a key without the parts they work with only in a collection that is unlocked or that the given key opens; without a fault they succeed exactly then. |
| LockBracket.Vault.Unlock | daemon/CryptoImpl/cryptopluginfunctionwrappers.cpp:18-49 | Succeeds only with an unlocked collection, and opens it only with its key; without a fault it does exactly then. |
| LockBracket.Vault.PreCheck | daemon/SecretsImpl/pluginfunctionwrappers.cpp:1355-1434 | The lock is restored if and only if not (the key opened the collection, and relocking was not asked for or the following query failed); the answers about the secret are right. |
| LockBracket.Vault.UnlockAndRemoveCollection | daemon/SecretsImpl/pluginfunctionwrappers.cpp:1288-1316 | A wrong key removes nothing; a removal that fails leaves the collection open exactly if it was locked and the key opened it. |
| LockBracket.Vault.ReencryptAll | daemon/SecretsImpl/pluginfunctionwrappers.cpp:1258-1286 | Each of the collections is re-encrypted or keeps its key, none loses a secret, others are untouched, and failure is reported exactly when one kept its key. |
| LockBracket.Vault.UnlockDeviceLockedAndReencrypt | daemon/SecretsImpl/pluginfunctionwrappers.cpp:1233-1286 | Exactly the collections whose metadata names the device lock key are re-encrypted; if they cannot be determined nothing changes. |
| LockBracket.Vault.SelectDeviceLocked | daemon/SecretsImpl/pluginfunctionwrappers.cpp:1238-1256 | Selects each of those collections once, or reports that it cannot. |
| LockBracket.Vault.UnlockAndReencrypt | daemon/SecretsImpl/pluginfunctionwrappers.cpp:1260-1283 | One collection of that loop. |

## Left out

- D-Bus registration, connections, marshalling and discovery: a reply is one abstract event.
- The switches that turn a request into a processor call: only their contract of completing and replying is used.
- Requests are values; that two containers hold pointers to the same request object is not captured.
- Eventual completion under a timer that always cuts passes short: only safety is stated for passes.
- Real cryptography, SQLCipher and the derivation loop over plugins: derivation is an arbitrary deterministic function.
- Resetting all data after corruption is modelled only as the record folder becoming absent or staying as it is; the
  notification is not.
- Statements that themselves open or end a transaction, in the schema upgrade.
- Standalone secrets in the agreement of index and plugin: resynchronisation skips them by design.
- The plugin lock helpers of the crypto processor, access control, application identity, plugin loading, logging,
  translations and the client libraries.
- Update of secret metadata, and reading operations that only forward to the plugin.
- The removal of a collection with a key derived from a lock code, which only derives the key first.
- What a crypto reply carries besides the result and a key: signatures, digests, data and session tokens.
- The null pointer check of getData.
- Crypto operations of a plugin that stores no keys: they touch no collection.
