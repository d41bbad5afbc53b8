/**
 The storage plugin wrappers (daemon/SecretsImpl/pluginwrapper.cpp, daemon/CryptoImpl/cryptopluginwrapper.cpp):
 every operation changes the plugin's data and the metadata index together, inside one metadata transaction.

 A plugin call that fails leaves the plugin unchanged; which calls and which statements fail is left open.
 */
module PluginWrappers {
  import opened Basics
  import opened MetadataTables
  import opened MetadataDbs
  import opened Transactions
  import opened UnlockSemantics

  // ---- the plugin -----------------------------------------------------------------------------------

  /** `collections` tells of each collection whether it is locked. */
  datatype Store = Store(locked: bool, collections: map<string, bool>, secrets: set<SecretKey>)

  ghost predicate ProperName(name: string, standalone: Standalone) {
    name != "" && !standalone(name)
  }

  ghost predicate ProperStore(p: Store, standalone: Standalone) {
    && (forall c :: c in p.collections ==> ProperName(c, standalone))
    && (forall k :: k in p.secrets ==> k.0 in p.collections)
  }

  function StoreWithout(p: Store, name: string): Store {
    p.(collections := p.collections - {name}, secrets := set k | k in p.secrets && k.0 != name)
  }

  ghost predicate OnlyLockChanged(p: Store, q: Store, name: string) {
    && q == p.(collections := q.collections) && q.collections.Keys == p.collections.Keys
    && forall c :: c in p.collections && c != name ==> q.collections[c] == p.collections[c]
  }

  /** The store after a key was set: the right one unlocks, any other leaves the collection locked. */
  function WithKey(p: Store, name: string, key: string, opens: (string, string) -> bool): Store {
    if name in p.collections then p.(collections := p.collections[name := !(key != "" && opens(name, key))]) else p
  }

  class StoragePlugin {
    const opens: (string, string) -> bool // collection and key
    var store: Store
    ghost var faults: nat // calls that failed so far

    constructor (store: Store, opens: (string, string) -> bool)
      ensures this.store == store && this.opens == opens
    {
      this.store, this.opens := store, opens;
    }

    /** Any call may fail, for whatever reason of the plugin's own. */
    method Fails() returns (failed: bool)
      modifies `faults
      ensures faults == old(faults) + if failed then 1 else 0
    {
      failed := *;
      if failed { faults := faults + 1; }
    }

    method IsCollectionLocked(name: string) returns (ok: bool, locked: bool)
      modifies `faults
      ensures faults >= old(faults) && (ok <==> faults == old(faults) && name in store.collections)
      ensures ok ==> locked == store.collections[name]
      ensures !ok ==> !locked
    {
      var failed := Fails();
      ok := !failed && name in store.collections;
      locked := ok && store.collections[name];
    }

    /** Unlocks, or with an empty key locks. A wrong key may be taken, and leaves the collection locked. */
    method SetEncryptionKey(name: string, key: string) returns (ok: bool)
      modifies `store, `faults
      ensures faults >= old(faults) && (ok <==> faults == old(faults))
      ensures store == if ok then WithKey(old(store), name, key, opens) else old(store)
      ensures OnlyLockChanged(old(store), store, name)
    {
      var failed := Fails();
      ok := !failed;
      if ok { store := WithKey(store, name, key, opens); }
    }

    method CreateCollection(name: string) returns (ok: bool)
      modifies `store, `faults
      ensures faults >= old(faults) && (ok <==> faults == old(faults))
      ensures store == if ok then old(store).(collections := old(store.collections)[name := false]) else old(store)
    {
      var failed := Fails();
      ok := !failed;
      if ok { store := store.(collections := store.collections[name := false]); }
    }

    method RemoveCollection(name: string) returns (ok: bool)
      modifies `store, `faults
      ensures faults >= old(faults) && (ok <==> faults == old(faults))
      ensures store == if ok then StoreWithout(old(store), name) else old(store)
    {
      var failed := Fails();
      ok := !failed;
      if ok { store := StoreWithout(store, name); }
    }

    /** Stores a secret, or generates or imports a key, in a collection it has; standalone ones it keeps apart. */
    method AddSecret(k: SecretKey, standalone: bool) returns (ok: bool)
      modifies `store, `faults
      ensures faults >= old(faults)
      ensures ok <==> faults == old(faults) && (standalone || k.0 in old(store.collections))
      ensures store == if ok && !standalone then old(store).(secrets := old(store.secrets) + {k}) else old(store)
    {
      var failed := Fails();
      ok := !failed && (standalone || k.0 in store.collections);
      if ok && !standalone { store := store.(secrets := store.secrets + {k}); }
    }

    method RemoveSecret(k: SecretKey) returns (ok: bool)
      modifies `store, `faults
      ensures faults >= old(faults) && (ok <==> faults == old(faults))
      ensures store == if ok then old(store).(secrets := old(store.secrets) - {k}) else old(store)
    {
      var failed := Fails();
      ok := !failed;
      if ok { store := store.(secrets := store.secrets - {k}); }
    }

    method SetLock(lock: bool) returns (ok: bool)
      modifies `store, `faults
      ensures faults >= old(faults) && (ok <==> faults == old(faults))
      ensures store == if ok then old(store).(locked := lock) else old(store)
    {
      var failed := Fails();
      ok := !failed;
      if ok { store := store.(locked := lock); }
    }

    method CollectionNames() returns (ok: bool, names: seq<string>)
      modifies `faults
      ensures faults >= old(faults) && (ok <==> faults == old(faults))
      ensures ok ==> Lists(names, store.collections.Keys)
    {
      var failed := Fails();
      ok := !failed;
      names := Listing(store.collections.Keys);
    }

    method SecretNames(name: string) returns (ok: bool, names: seq<string>)
      modifies `faults
      ensures faults >= old(faults) && (ok <==> faults == old(faults))
      ensures Distinct(names) && forall s :: s in names <==> (name, s) in store.secrets
    {
      var failed := Fails();
      ok := !failed;
      names := Listing(set k | k in store.secrets && k.0 == name :: k.1);
    }
  }

  // ---- the wrapper ----------------------------------------------------------------------------------

  datatype Code = PluginIsLocked | CollectionAlreadyExists | InvalidCollection | SecretAlreadyExists
                | CollectionIsLocked | NotSupported | DatabaseError | PluginError

  datatype Result = Succeeded | Failed(code: Code)

  /** Outside the standalone collection, index and plugin have the same collections and the same secrets. */
  ghost predicate Agrees(t: Tables, p: Store, standalone: Standalone) {
    forall c :: !standalone(c) && c != "" ==>
      && (c in t.collections <==> c in p.collections)
      && forall s :: (c, s) in t.secrets <==> (c, s) in p.secrets
  }

  lemma LockDoesNotMatter(t: Tables, p: Store, q: Store, name: string, standalone: Standalone)
    requires OnlyLockChanged(p, q, name)
    ensures ProperStore(p, standalone) ==> ProperStore(q, standalone)
    ensures Agrees(t, p, standalone) ==> Agrees(t, q, standalone)
  {
  }

  lemma PluginLockDoesNotMatter(t: Tables, p: Store, q: Store, standalone: Standalone)
    requires q == p.(locked := q.locked)
    ensures ProperStore(p, standalone) ==> ProperStore(q, standalone)
    ensures Agrees(t, p, standalone) ==> Agrees(t, q, standalone)
  {
  }

  lemma CreatedAgree(t: Tables, p: Store, name: string, row: CollectionRow, standalone: Standalone)
    requires Linked(t) && ProperStore(p, standalone) && ProperName(name, standalone)
    requires InsertCollection(t, name, row).Some?
    ensures var t', q := InsertCollection(t, name, row).value, p.(collections := p.collections[name := false]);
            Linked(t') && ProperStore(q, standalone) && (Agrees(t, p, standalone) ==> Agrees(t', q, standalone))
  {
  }

  lemma RemovedAgree(t: Tables, p: Store, name: string, standalone: Standalone)
    requires Linked(t) && ProperStore(p, standalone)
    ensures var t', q := DeleteCollection(t, name), StoreWithout(p, name);
            Linked(t') && ProperStore(q, standalone) && (Agrees(t, p, standalone) ==> Agrees(t', q, standalone))
  {
  }

  lemma AddedAgree(t: Tables, p: Store, k: SecretKey, row: SecretRow, standalone: Standalone)
    requires Linked(t) && ProperStore(p, standalone) && InsertSecret(t, k, row).Some? && k.0 in p.collections
    ensures var t', q := InsertSecret(t, k, row).value, p.(secrets := p.secrets + {k});
            Linked(t') && ProperStore(q, standalone) && (Agrees(t, p, standalone) ==> Agrees(t', q, standalone))
  {
  }

  lemma StandaloneDoesNotMatter(t: Tables, p: Store, k: SecretKey, row: SecretRow, standalone: Standalone)
    requires Linked(t) && InsertSecret(t, k, row).Some? && standalone(k.0)
    ensures Linked(InsertSecret(t, k, row).value)
    ensures Agrees(t, p, standalone) ==> Agrees(InsertSecret(t, k, row).value, p, standalone)
  {
  }

  lemma SecretRemovedAgree(t: Tables, p: Store, k: SecretKey, standalone: Standalone)
    requires Linked(t) && ProperStore(p, standalone)
    ensures var t', q := DeleteSecret(t, k), p.(secrets := p.secrets - {k});
            Linked(t') && ProperStore(q, standalone) && (Agrees(t, p, standalone) ==> Agrees(t', q, standalone))
  {
  }

  /** What a wrapper does not tell the secrets of: its locked collections, if it is one of encrypted storage. */
  function LockedNames(p: Store, encrypted: bool): set<string> {
    set c | c in p.collections && encrypted && p.collections[c]
  }

  function OpenSecrets(p: Store, encrypted: bool): set<SecretKey> {
    set k | k in p.secrets && k.0 !in LockedNames(p, encrypted)
  }

  /** The notional collection of standalone secrets. */
  const STANDALONE_ROW := CollectionRow("standalone", false, "standalone", "standalone", DEVICE_LOCK_KEEP_UNLOCKED,
                                        NO_ACCESS_CONTROL)

  function WithStandalone(t: Tables): Tables {
    if "standalone" in t.collections then t else t.(collections := t.collections["standalone" := STANDALONE_ROW])
  }

  class PluginWrapper {
    const metadata: MetadataDb
    const plugin: StoragePlugin
    const encrypted: bool    // an encrypted storage plugin, with locks on collections
    const canStoreKeys: bool // a crypto plugin too

    var initialized: bool
    var open: bool                // the metadata database; closed is master-locked
    var masterKey: Option<string> // the key it is encrypted with, once it was created

    ghost predicate Valid()
      reads this, metadata.db, plugin
    {
      var db := metadata.db;
      && db.counter == 0 && db.committed == db.working && Linked(db.committed)
      && ProperStore(plugin.store, metadata.standalone)
      && metadata.standalone("standalone")
      && (initialized ==> Agrees(db.committed, plugin.store, metadata.standalone))
    }

    constructor (metadata: MetadataDb, plugin: StoragePlugin, encrypted: bool, canStoreKeys: bool, masterKey: Option<string>)
      requires metadata.db.counter == 0 && metadata.db.committed == metadata.db.working && Linked(metadata.db.committed)
      requires ProperStore(plugin.store, metadata.standalone) && metadata.standalone("standalone")
      ensures Valid() && !initialized && !open && this.metadata == metadata && this.plugin == plugin
      ensures this.encrypted == encrypted && this.canStoreKeys == canStoreKeys && this.masterKey == masterKey
    {
      this.metadata, this.plugin, this.encrypted, this.canStoreKeys := metadata, plugin, encrypted, canStoreKeys;
      initialized, open := false, false;
      this.masterKey := masterKey;
    }

    ghost function Fixed(): Setup {
      Setup(encrypted, canStoreKeys, plugin.opens, metadata.standalone, metadata.collectionRow, metadata.secretRow)
    }

    ghost function Abs(): View
      reads this, metadata.db, plugin
    {
      View(initialized, open, masterKey, metadata.db.committed, plugin.store)
    }

    /** Faults are counted, and by the plugin and the database alone. */
    twostate predicate Counts()
      reads metadata.db, plugin
    {
      metadata.db.faults >= old(metadata.db.faults) && plugin.faults >= old(plugin.faults)
    }

    /** No call into the plugin, no statement and no query failed. */
    twostate predicate Undisturbed()
      reads metadata.db, plugin
    {
      metadata.db.faults == old(metadata.db.faults) && plugin.faults == old(plugin.faults)
    }

    /** A failing query counts as locked. */
    method IsMasterLocked() returns (locked: bool)
      modifies metadata.db`faults
      ensures Counts() && (locked <==> !open || !Undisturbed())
    {
      if !open { return true; }
      locked := metadata.db.Fails();
    }

    /** Whether operations are refused: the plugin is locked, or the database is. */
    method IsLocked() returns (locked: bool)
      modifies metadata.db`faults
      ensures Counts() && (locked <==> plugin.store.locked || !open || !Undisturbed())
    {
      if plugin.store.locked { return true; }
      locked := IsMasterLocked();
    }

    // ---- operations ---------------------------------------------------------------------------------

    /** The transaction of createCollection. */
    method AddCollection(name: string, row: CollectionRow) returns (r: Result)
      requires Valid() && ProperName(name, metadata.standalone)
      modifies metadata.db, plugin
      ensures Valid() && Counts() && r != Failed(CollectionAlreadyExists)
      ensures r.Failed? ==> metadata.db.committed == old(metadata.db.committed) && plugin.store == old(plugin.store)
      ensures r == Succeeded ==>
                && name !in old(metadata.db.committed).collections
                && metadata.db.committed ==
                     Tables(old(metadata.db.committed).collections[name := row], old(metadata.db.committed).secrets)
                && plugin.store == old(plugin.store).(collections := old(plugin.store.collections)[name := false])
      ensures Undisturbed() && name !in old(metadata.db.committed).collections ==> r == Succeeded
    {
      hide Agrees, Linked, ProperStore;
      ghost var t, p := metadata.db.committed, plugin.store;
      var begun := metadata.db.BeginTransaction();
      if !begun { return Failed(DatabaseError); }
      var inserted := metadata.InsertCollectionMetadata(name, row);
      if !inserted {
        var _ := metadata.db.RollbackTransaction();
        return Failed(DatabaseError);
      }
      var created := plugin.CreateCollection(name);
      if !created {
        var _ := metadata.db.RollbackTransaction();
        return Failed(PluginError);
      }
      var _ := metadata.db.CommitTransaction();
      CreatedAgree(t, p, name, row, metadata.standalone);
      return Succeeded;
    }

    method CreateCollection(name: string, row: CollectionRow) returns (r: Result)
      requires Valid() && ProperName(name, metadata.standalone)
      modifies metadata.db, plugin
      ensures Valid() && Counts()
      ensures r.Failed? ==> metadata.db.committed == old(metadata.db.committed) && plugin.store == old(plugin.store)
      ensures r == Succeeded ==>
                && name !in old(metadata.db.committed).collections
                && metadata.db.committed ==
                     Tables(old(metadata.db.committed).collections[name := row], old(metadata.db.committed).secrets)
                && var created := old(plugin.store).(collections := old(plugin.store.collections)[name := false]);
                   OnlyLockChanged(created, plugin.store, name)
      ensures r == Failed(CollectionAlreadyExists) ==> name in old(metadata.db.committed).collections
      // without faults: what is refused, and which collections are left unlocked
      ensures Undisturbed() ==>
                r == if old(plugin.store.locked) || !open then Failed(PluginIsLocked)
                     else if name in old(metadata.db.committed).collections then Failed(CollectionAlreadyExists)
                     else Succeeded
      ensures Undisturbed() && r == Succeeded ==>
                var relocked := encrypted && row.unlockSemantic != (if row.usesDeviceLockKey then DEVICE_LOCK_KEEP_UNLOCKED
                                                                    else CUSTOM_LOCK_KEEP_UNLOCKED);
                plugin.store == old(plugin.store).(collections := old(plugin.store.collections)[name := relocked])
    {
      hide Agrees, Linked, ProperStore;
      var locked := IsLocked();
      if locked { return Failed(PluginIsLocked); }
      var queried, exists_ := metadata.HasCollection(name);
      if exists_ { return Failed(CollectionAlreadyExists); }
      if !queried { return Failed(DatabaseError); }
      r := AddCollection(name, row);
      if r == Succeeded && encrypted && !KeepsUnlocked(row.usesDeviceLockKey, row.unlockSemantic) {
        ghost var q := plugin.store;
        var _ := plugin.SetEncryptionKey(name, "");
        LockDoesNotMatter(metadata.db.committed, q, plugin.store, name, metadata.standalone);
      }
    }

    method RemoveCollection(name: string) returns (r: Result)
      requires Valid()
      modifies metadata.db, plugin
      ensures Valid() && Counts()
      ensures r.Failed? ==> metadata.db.committed == old(metadata.db.committed) && plugin.store == old(plugin.store)
      ensures r == Succeeded ==>
                && metadata.db.committed == DeleteCollection(old(metadata.db.committed), name)
                && plugin.store == StoreWithout(old(plugin.store), name)
      ensures Undisturbed() ==>
                r == if old(plugin.store.locked) || !open then Failed(PluginIsLocked) else Succeeded
    {
      hide Agrees, Linked, ProperStore, DeleteCollection, StoreWithout;
      var locked := IsLocked();
      if locked { return Failed(PluginIsLocked); }
      ghost var t, p := metadata.db.committed, plugin.store;
      var begun := metadata.db.BeginTransaction();
      if !begun { return Failed(DatabaseError); }
      var deleted := metadata.DeleteCollectionMetadata(name);
      if !deleted {
        var _ := metadata.db.RollbackTransaction();
        return Failed(DatabaseError);
      }
      var removed := plugin.RemoveCollection(name);
      if !removed {
        var _ := metadata.db.RollbackTransaction();
        return Failed(PluginError);
      }
      var _ := metadata.db.CommitTransaction();
      RemovedAgree(t, p, name, metadata.standalone);
      return Succeeded;
    }

    /** Before a secret is set: encrypted storage asks the plugin about the collection, plain storage the index. */
    method CheckSetSecret(k: SecretKey) returns (r: Result)
      modifies metadata.db`faults, plugin`faults
      ensures Counts()
      ensures r == Failed(CollectionIsLocked) ==> k.0 in plugin.store.collections && plugin.store.collections[k.0]
      ensures r == Failed(SecretAlreadyExists) ==> k in metadata.db.working.secrets
      ensures r == Failed(InvalidCollection) ==> k.0 !in metadata.db.working.collections
      ensures r == Succeeded ==>
                if encrypted then k.0 in plugin.store.collections && !plugin.store.collections[k.0]
                else k.0 in metadata.db.working.collections && k !in metadata.db.working.secrets
      ensures Undisturbed() ==>
                r == if encrypted then
                       if k.0 !in plugin.store.collections then Failed(PluginError)
                       else if plugin.store.collections[k.0] then Failed(CollectionIsLocked) else Succeeded
                     else if k.0 !in metadata.db.working.collections then Failed(InvalidCollection)
                     else if k in metadata.db.working.secrets then Failed(SecretAlreadyExists) else Succeeded
    {
      if encrypted {
        var known, locked := plugin.IsCollectionLocked(k.0);
        if locked { return Failed(CollectionIsLocked); }
        return if known then Succeeded else Failed(PluginError);
      }
      r := CheckNewSecret(k);
    }

    method CheckNewSecret(k: SecretKey) returns (r: Result)
      modifies metadata.db`faults
      ensures Counts()
      ensures r == Failed(SecretAlreadyExists) ==> k in metadata.db.working.secrets
      ensures r == Failed(InvalidCollection) ==> k.0 !in metadata.db.working.collections
      ensures r == Succeeded ==> k.0 in metadata.db.working.collections && k !in metadata.db.working.secrets
      ensures Undisturbed() ==>
                r == if k.0 !in metadata.db.working.collections then Failed(InvalidCollection)
                     else if k in metadata.db.working.secrets then Failed(SecretAlreadyExists) else Succeeded
      ensures r != Failed(CollectionIsLocked)
    {
      var queried, exists_ := metadata.HasCollection(k.0);
      if !queried { return Failed(DatabaseError); }
      if !exists_ { return Failed(InvalidCollection); }
      queried, exists_ := metadata.HasSecret(k);
      if !queried { return Failed(DatabaseError); }
      return if exists_ then Failed(SecretAlreadyExists) else Succeeded;
    }

    method SetSecret(k: SecretKey, row: SecretRow) returns (r: Result)
      requires Valid()
      modifies metadata.db, plugin
      ensures Valid() && Counts()
      ensures r.Failed? ==> metadata.db.committed == old(metadata.db.committed) && plugin.store == old(plugin.store)
      ensures r == Succeeded ==>
                && k !in old(metadata.db.committed).secrets && k.0 in old(metadata.db.committed).collections
                && metadata.db.committed ==
                     Tables(old(metadata.db.committed).collections, old(metadata.db.committed).secrets[k := row])
                && plugin.store == (if !encrypted && metadata.standalone(k.0) then old(plugin.store)
                                    else old(plugin.store).(secrets := old(plugin.store.secrets) + {k}))
      ensures r == Failed(CollectionIsLocked) ==> k.0 in plugin.store.collections && plugin.store.collections[k.0]
      ensures r == Failed(SecretAlreadyExists) ==> k in metadata.db.committed.secrets
      ensures r == Failed(InvalidCollection) ==> k.0 !in metadata.db.committed.collections
      // without faults: only locks, a row that is there and a collection that is not stand in the way
      ensures Undisturbed() ==>
                (r == Succeeded <==>
                   && !old(plugin.store.locked) && open
                   && k.0 in old(metadata.db.committed).collections && k !in old(metadata.db.committed).secrets
                   && (if encrypted then k.0 in old(plugin.store.collections) && !old(plugin.store.collections)[k.0]
                       else metadata.standalone(k.0) || k.0 in old(plugin.store.collections)))
      ensures Undisturbed() && (old(plugin.store.locked) || !open) ==> r == Failed(PluginIsLocked)
    {
      hide Agrees, Linked, ProperStore;
      var locked := IsLocked();
      if locked { return Failed(PluginIsLocked); }
      r := CheckSetSecret(k);
      if r.Failed? { return; }
      ghost var t, p := metadata.db.committed, plugin.store;
      var begun := metadata.db.BeginTransaction();
      if !begun { return Failed(DatabaseError); }
      var inserted := metadata.InsertSecretMetadata(k, row);
      if !inserted {
        var _ := metadata.db.RollbackTransaction();
        return Failed(DatabaseError);
      }
      var apart := !encrypted && metadata.standalone(k.0); // only plain storage takes standalone secrets this way
      var added := plugin.AddSecret(k, apart);
      if !added {
        var _ := metadata.db.RollbackTransaction();
        return Failed(PluginError);
      }
      var _ := metadata.db.CommitTransaction();
      if apart {
        StandaloneDoesNotMatter(t, p, k, row, metadata.standalone);
      } else {
        AddedAgree(t, p, k, row, metadata.standalone);
      }
      return Succeeded;
    }

    /** The form that stores a standalone secret, which the plugin keeps apart from its collections. */
    method SetStandaloneSecret(k: SecretKey, row: SecretRow) returns (r: Result)
      requires Valid() && encrypted && metadata.standalone(k.0)
      modifies metadata.db, plugin`faults
      ensures Valid() && Counts()
      ensures r.Failed? ==> metadata.db.committed == old(metadata.db.committed)
      ensures r == Succeeded ==>
                && k !in old(metadata.db.committed).secrets && k.0 in old(metadata.db.committed).collections
                && metadata.db.committed ==
                     Tables(old(metadata.db.committed).collections, old(metadata.db.committed).secrets[k := row])
      ensures r == Failed(SecretAlreadyExists) ==> k in metadata.db.committed.secrets
      ensures r == Failed(InvalidCollection) ==> k.0 !in metadata.db.committed.collections
      ensures Undisturbed() ==>
                r == if plugin.store.locked || !open then Failed(PluginIsLocked)
                     else if k.0 !in old(metadata.db.committed).collections then Failed(InvalidCollection)
                     else if k in old(metadata.db.committed).secrets then Failed(SecretAlreadyExists)
                     else Succeeded
    {
      hide Agrees, Linked, ProperStore;
      var locked := IsLocked();
      if locked { return Failed(PluginIsLocked); }
      r := CheckNewSecret(k);
      if r.Failed? { return; }
      ghost var t := metadata.db.committed;
      var begun := metadata.db.BeginTransaction();
      if !begun { return Failed(DatabaseError); }
      var inserted := metadata.InsertSecretMetadata(k, row);
      if !inserted {
        var _ := metadata.db.RollbackTransaction();
        return Failed(DatabaseError);
      }
      var failed := plugin.Fails();
      if failed {
        var _ := metadata.db.RollbackTransaction();
        return Failed(PluginError);
      }
      var _ := metadata.db.CommitTransaction();
      StandaloneDoesNotMatter(t, plugin.store, k, row, metadata.standalone);
      return Succeeded;
    }

    method RemoveSecret(k: SecretKey) returns (r: Result)
      requires Valid()
      modifies metadata.db, plugin
      ensures Valid() && Counts()
      ensures r.Failed? ==> metadata.db.committed == old(metadata.db.committed) && plugin.store == old(plugin.store)
      ensures r == Succeeded ==>
                && metadata.db.committed ==
                     Tables(old(metadata.db.committed).collections, old(metadata.db.committed).secrets - {k})
                && plugin.store == old(plugin.store).(secrets := old(plugin.store.secrets) - {k})
      ensures r == Failed(CollectionIsLocked) ==> k.0 in plugin.store.collections && plugin.store.collections[k.0]
      ensures Undisturbed() ==>
                r == if old(plugin.store.locked) || !open then Failed(PluginIsLocked)
                     else if encrypted && k.0 !in plugin.store.collections then Failed(PluginError)
                     else if encrypted && plugin.store.collections[k.0] then Failed(CollectionIsLocked)
                     else Succeeded
    {
      hide Agrees, Linked, ProperStore;
      var locked := IsLocked();
      if locked { return Failed(PluginIsLocked); }
      if encrypted {
        var known, isLocked := plugin.IsCollectionLocked(k.0);
        if isLocked { return Failed(CollectionIsLocked); }
        if !known { return Failed(PluginError); }
      }
      ghost var t, p := metadata.db.committed, plugin.store;
      var begun := metadata.db.BeginTransaction();
      if !begun { return Failed(DatabaseError); }
      var deleted := metadata.DeleteSecretMetadata(k);
      if !deleted {
        var _ := metadata.db.RollbackTransaction();
        return Failed(DatabaseError);
      }
      var removed := plugin.RemoveSecret(k);
      if !removed {
        var _ := metadata.db.RollbackTransaction();
        return Failed(PluginError);
      }
      var _ := metadata.db.CommitTransaction();
      SecretRemovedAgree(t, p, k, metadata.standalone);
      return Succeeded;
    }

    /** The first half of prepareToStoreKey: the collection is there and unlocked, or its key is given. */
    method UnlockForKey(name: string, unlockKey: string) returns (r: Result, wasLocked: bool)
      modifies metadata.db`faults, plugin
      ensures Counts()
      ensures OnlyLockChanged(old(plugin.store), plugin.store, name)
      ensures wasLocked ==> name in old(plugin.store.collections) && old(plugin.store.collections)[name]
      ensures !wasLocked ==> plugin.store == old(plugin.store)
      ensures Undisturbed() && r == Succeeded && name in old(plugin.store.collections) ==>
                (wasLocked <==> old(plugin.store.collections)[name])
      ensures Undisturbed() ==>
                (r == Succeeded <==>
                   && !old(plugin.store.locked) && open && canStoreKeys && name in old(plugin.store.collections)
                   && (old(plugin.store.collections)[name] ==> unlockKey != "" && plugin.opens(name, unlockKey)))
    {
      wasLocked := false;
      var unusable := IsLocked();
      if unusable { return Failed(PluginIsLocked), wasLocked; }
      if !canStoreKeys { return Failed(NotSupported), wasLocked; }
      var known, locked := plugin.IsCollectionLocked(name);
      if !known { return Failed(PluginError), wasLocked; }
      wasLocked := locked;
      if locked {
        var unlocked := plugin.SetEncryptionKey(name, unlockKey);
        if !unlocked { return Failed(PluginError), wasLocked; }
        known, locked := plugin.IsCollectionLocked(name);
        if locked { return Failed(CollectionIsLocked), wasLocked; }
      }
      return Succeeded, wasLocked;
    }

    /**
     prepareToStoreKey: unlocks the collection and, on success, leaves a transaction open that holds the new row.
     */
    method PrepareToStoreKey(k: SecretKey, row: SecretRow, unlockKey: string) returns (r: Result, wasLocked: bool)
      requires metadata.db.counter == 0
      modifies metadata.db, plugin
      ensures Counts()
      ensures OnlyLockChanged(old(plugin.store), plugin.store, k.0)
      ensures wasLocked ==> k.0 in old(plugin.store.collections) && old(plugin.store.collections)[k.0]
      ensures !wasLocked ==> plugin.store == old(plugin.store)
      ensures r.Failed? ==>
                metadata.db.counter == 0 && metadata.db.committed == old(metadata.db.committed) &&
                (metadata.db.working == old(metadata.db.working) || metadata.db.working == metadata.db.committed)
      ensures r == Succeeded ==>
                && k !in old(metadata.db.working).secrets && k.0 in old(metadata.db.working).collections
                && metadata.db.counter == 1 && metadata.db.committed == old(metadata.db.committed)
                && metadata.db.working ==
                     Tables(old(metadata.db.working).collections, old(metadata.db.working).secrets[k := row])
      ensures Undisturbed() ==>
                (r == Succeeded <==>
                   && !old(plugin.store.locked) && open && canStoreKeys && k.0 in old(plugin.store.collections)
                   && (old(plugin.store.collections)[k.0] ==> unlockKey != "" && plugin.opens(k.0, unlockKey))
                   && k.0 in old(metadata.db.working).collections && k !in old(metadata.db.working).secrets)
    {
      hide OnlyLockChanged;
      r, wasLocked := UnlockForKey(k.0, unlockKey);
      if r.Failed? { return; }
      var queried, exists_ := metadata.HasSecret(k);
      if !queried { return Failed(DatabaseError), wasLocked; }
      if exists_ { return Failed(SecretAlreadyExists), wasLocked; }
      var begun := metadata.db.BeginTransaction();
      if !begun { return Failed(DatabaseError), wasLocked; }
      var inserted := metadata.InsertSecretMetadata(k, row);
      if !inserted {
        var _ := metadata.db.RollbackTransaction();
        return Failed(DatabaseError), wasLocked;
      }
      return Succeeded, wasLocked;
    }

    /** generateAndStoreKey and importAndStoreKey; `relocked` tells that no relocking failed. */
    method StoreKey(k: SecretKey, row: SecretRow, unlockKey: string) returns (r: Result, relocked: bool)
      requires Valid()
      modifies metadata.db, plugin
      ensures Valid() && Counts() && (Undisturbed() ==> relocked)
      ensures relocked ==> plugin.store.collections == old(plugin.store.collections)
      ensures plugin.store.locked == old(plugin.store.locked)
      ensures OnlyLockChanged(old(plugin.store).(secrets := plugin.store.secrets), plugin.store, k.0)
      ensures r.Failed? ==>
                metadata.db.committed == old(metadata.db.committed) && plugin.store.secrets == old(plugin.store.secrets)
      ensures r == Succeeded ==>
                && k !in old(metadata.db.committed).secrets && k.0 in old(metadata.db.committed).collections
                && metadata.db.committed ==
                     Tables(old(metadata.db.committed).collections, old(metadata.db.committed).secrets[k := row])
                && plugin.store.secrets == old(plugin.store.secrets) + {k}
      ensures Undisturbed() ==>
                (r == Succeeded <==>
                   && !old(plugin.store.locked) && open && canStoreKeys && k.0 in old(plugin.store.collections)
                   && (old(plugin.store.collections)[k.0] ==> unlockKey != "" && plugin.opens(k.0, unlockKey))
                   && k.0 in old(metadata.db.committed).collections && k !in old(metadata.db.committed).secrets)
    {
      hide Agrees, Linked, ProperStore;
      ghost var t, p := metadata.db.committed, plugin.store;
      var wasLocked;
      r, wasLocked := PrepareToStoreKey(k, row, unlockKey);
      LockDoesNotMatter(t, p, plugin.store, k.0, metadata.standalone);
      ghost var prepared := plugin.store;
      if r == Succeeded {
        var stored := plugin.AddSecret(k, false);
        if stored {
          var _ := metadata.db.CommitTransaction();
          AddedAgree(t, prepared, k, row, metadata.standalone);
        } else {
          var _ := metadata.db.RollbackTransaction();
          r := Failed(PluginError);
        }
      }
      relocked := true;
      if wasLocked {
        ghost var q := plugin.store;
        relocked := plugin.SetEncryptionKey(k.0, "");
        LockDoesNotMatter(metadata.db.committed, q, plugin.store, k.0, metadata.standalone);
      }
    }

    /** keyNames of a crypto plugin: the recorded keys, then those only the plugin knows of, none twice. */
    method KeyNames(collection: string, recorded: seq<string>, identifiers: seq<SecretKey>) returns (names: seq<string>)
      requires Distinct(recorded)
      ensures Distinct(names) && recorded <= names
      ensures forall s :: s in names <==> s in recorded || (canStoreKeys && (collection, s) in identifiers)
    {
      names := recorded;
      if canStoreKeys {
        for i := 0 to |identifiers|
          invariant Distinct(names) && recorded <= names
          invariant forall s :: s in names <==> s in recorded || (collection, s) in identifiers[..i]
        {
          if identifiers[i].0 == collection && identifiers[i].1 !in names {
            names := names + [identifiers[i].1];
          }
        }
        assert identifiers[..|identifiers|] == identifiers;
      }
    }

    // ---- resynchronisation --------------------------------------------------------------------------

    /** What the plugin tells about its collections: locked ones, or ones it cannot tell about, have no secrets here. */
    method Survey(names: seq<string>) returns (ok: bool, identifiers: seq<SecretKey>, locked: seq<string>)
      requires Lists(names, plugin.store.collections.Keys) && ProperStore(plugin.store, metadata.standalone)
      modifies plugin`faults
      ensures plugin.faults >= old(plugin.faults)
      ensures ok ==> Distinct(identifiers) && forall c :: c in locked ==> c in names
      ensures ok ==> forall k :: k in identifiers <==> k in plugin.store.secrets && k.0 in names && k.0 !in locked
      ensures ok ==> forall c :: c in names && encrypted && plugin.store.collections[c] ==> c in locked
      ensures plugin.faults == old(plugin.faults) ==>
                ok && forall c :: c in locked <==> c in names && encrypted && plugin.store.collections[c]
    {
      ok, identifiers, locked := true, [], [];
      for i := 0 to |names|
        invariant ok && plugin.faults >= old(plugin.faults)
        invariant Distinct(identifiers) && forall c :: c in locked ==> c in names[..i]
        invariant forall k :: k in identifiers <==> k in plugin.store.secrets && k.0 in names[..i] && k.0 !in locked
        invariant forall c :: c in names[..i] && encrypted && plugin.store.collections[c] ==> c in locked
        invariant plugin.faults == old(plugin.faults) ==>
                    forall c :: c in locked ==> encrypted && plugin.store.collections[c]
      {
        var known, isLocked := true, false;
        if encrypted {
          known, isLocked := plugin.IsCollectionLocked(names[i]);
        }
        assert names[..i + 1] == names[..i] + [names[i]] && names[i] !in names[..i];
        if isLocked || !known {
          locked := locked + [names[i]];
        } else {
          var snames;
          ok, snames := plugin.SecretNames(names[i]);
          if !ok { return; }
          identifiers := Identified(names[i], snames, identifiers);
        }
      }
      assert names[..|names|] == names;
    }

    /** openDatabase: with a wrong key nothing opens; a fresh database gets the notional standalone collection. */
    method OpenDatabase(key: string) returns (ok: bool)
      requires Valid() && !open
      modifies `open, `masterKey, metadata.db
      ensures Valid() && Counts()
      ensures old(masterKey).Some? && old(masterKey) != Some(key) ==>
                !open && metadata.db.committed == old(metadata.db.committed)
      ensures masterKey == if open then Some(key) else old(masterKey)
      ensures ok ==> open && "standalone" in metadata.db.committed.collections
      ensures metadata.db.committed in {old(metadata.db.committed), WithStandalone(old(metadata.db.committed))}
      ensures Undisturbed() ==> (ok <==> open) && (ok <==> old(masterKey) in {None, Some(key)})
      ensures ok ==> metadata.db.committed == WithStandalone(old(metadata.db.committed))
    {
      if masterKey != None && masterKey != Some(key) { return false; }
      var failed := metadata.db.Fails();
      if failed { return false; }
      open, masterKey, ok := true, Some(key), true;
      var listed, exists_ := metadata.HasCollection("standalone");
      if !exists_ {
        ok := metadata.InsertCollectionMetadata("standalone", STANDALONE_ROW);
      }
    }

    /**
     The part of initialize that needs the database and an unlocked plugin. If the plugin answered and no statement
     failed (`fault`), the index mirrors the plugin, but for collections that are locked or that the plugin could not tell
     about; without any of those the wrapper is initialized.
     */
    method Synchronise() returns (ok: bool, ghost fault: bool, ghost keys: set<SecretKey>, ghost locked: set<string>)
      requires Valid() && !initialized && open && !plugin.store.locked
      modifies `initialized, metadata.db, plugin`faults
      ensures Valid() && Counts() && (initialized ==> ok)
      ensures fault ==> metadata.db.faults > old(metadata.db.faults)
      ensures ok ==> forall k :: k in keys <==> k in plugin.store.secrets && k.0 !in locked
      ensures ok ==> LockedNames(plugin.store, encrypted) <= locked <= plugin.store.collections.Keys
      ensures ok && !fault ==>
                && Mirrors(old(metadata.db.committed), metadata.db.committed, plugin.store.collections.Keys, keys, locked,
                           metadata.standalone, metadata.collectionRow, metadata.secretRow)
                && metadata.db.committed == Sync(old(metadata.db.committed), plugin.store.collections.Keys, keys, locked,
                                                 metadata.standalone, metadata.collectionRow, metadata.secretRow)
      ensures initialized <==> ok && !fault && locked == {}
      ensures !ok ==> metadata.db.committed == old(metadata.db.committed)
      ensures Undisturbed() ==>
                && ok && !fault && locked == LockedNames(plugin.store, encrypted)
                && keys == OpenSecrets(plugin.store, encrypted)
    {
      hide Linked, ProperStore, Agrees, Members, Distinct, Reported, Sync, Mirrors;
      keys, locked, fault := {}, {}, false;
      var names;
      ok, names := plugin.CollectionNames();
      if !ok { return; }
      var identifiers, lockedNames;
      ok, identifiers, lockedNames := Survey(names);
      if !ok { return; }
      SurveyIsReported(names, identifiers, lockedNames, plugin.store, metadata.standalone);
      keys, locked := Members(identifiers), Members(lockedNames);
      ghost var t := metadata.db.committed;
      var synced := metadata.Resynchronise(names, identifiers, lockedNames);
      fault := !synced;
      initialized := synced && lockedNames == [];
      if initialized {
        SyncedAgrees(t, names, identifiers, plugin.store, metadata.standalone, metadata.collectionRow, metadata.secretRow);
      }
    }

    /**
     Resynchronises until it has once succeeded with nothing locked; from then on index and plugin agree. `keys` and
     `locked` are what the plugin told, `fault` that a statement failed while the index was changed.
     */
    method Initialize(key: string)
      returns (ok: bool, ghost fault: bool, ghost keys: set<SecretKey>, ghost locked: set<string>)
      requires Valid()
      modifies `initialized, `open, `masterKey, metadata.db, plugin`faults
      ensures Valid() && Counts() && (old(initialized) ==> initialized)
      ensures open && !old(open) ==> masterKey == Some(key) && old(masterKey) in {None, Some(key)}
      ensures masterKey == old(masterKey) || (old(masterKey) == None && masterKey == Some(key))
      ensures old(open) ==> open && masterKey == old(masterKey)
      ensures old(initialized) ==>
                ok && metadata.db.committed == old(metadata.db.committed) && open == old(open) && masterKey == old(masterKey)
      // an open database and an unlocked plugin that answers: the index mirrors the plugin
      ensures fault ==> !Undisturbed()
      ensures ok ==> open || old(initialized)
      ensures !old(initialized) && ok && !plugin.store.locked ==>
                var t := if old(open) then old(metadata.db.committed) else WithStandalone(old(metadata.db.committed));
                && (forall k :: k in keys <==> k in plugin.store.secrets && k.0 !in locked)
                && LockedNames(plugin.store, encrypted) <= locked <= plugin.store.collections.Keys
                && (initialized <==> !fault && locked == {})
                && (!fault ==>
                      && Mirrors(t, metadata.db.committed, plugin.store.collections.Keys, keys, locked,
                                 metadata.standalone, metadata.collectionRow, metadata.secretRow)
                      && metadata.db.committed == Sync(t, plugin.store.collections.Keys, keys, locked, metadata.standalone,
                                                       metadata.collectionRow, metadata.secretRow))
      ensures !old(initialized) && (!ok || plugin.store.locked) ==>
                && !initialized
                && metadata.db.committed in {old(metadata.db.committed), WithStandalone(old(metadata.db.committed))}
      // without faults, exactly
      ensures Undisturbed() && !old(initialized) ==>
                && (open <==> old(open) || old(masterKey) in {None, Some(key)})
                && (ok <==> open && (plugin.store.locked ==> encrypted))
                && (!plugin.store.locked && open ==>
                      locked == LockedNames(plugin.store, encrypted) && keys == OpenSecrets(plugin.store, encrypted))
                && (plugin.store.locked || !open ==>
                      metadata.db.committed == if open && !old(open) then WithStandalone(old(metadata.db.committed))
                                               else old(metadata.db.committed))
    {
      hide Linked, ProperStore, Agrees, Mirrors, Sync, WithStandalone;
      fault, keys, locked := false, {}, {};
      if initialized { return true, fault, keys, locked; }
      if !open {
        ok := OpenDatabase(key);
        if !ok { return; }
      }
      if plugin.store.locked { return encrypted, fault, keys, locked; }
      ok, fault, keys, locked := Synchronise();
    }

    // ---- locks --------------------------------------------------------------------------------------

    method SetEncryptionKey(name: string, key: string) returns (r: Result)
      requires Valid() && encrypted
      modifies this, metadata.db, plugin
      ensures Valid() && Counts() && (old(initialized) ==> initialized)
      ensures OnlyLockChanged(old(plugin.store), plugin.store, name)
      ensures r.Failed? ==> plugin.store == old(plugin.store)
      ensures Undisturbed() ==>
                && r == (if open then Succeeded else Failed(PluginIsLocked))
                && plugin.store == if open then WithKey(old(plugin.store), name, key, plugin.opens) else old(plugin.store)
      // a collection that was opened is brought into the index
      ensures open == old(open) && masterKey == old(masterKey)
      ensures Undisturbed() && open ==> InSync(old(initialized), old(metadata.db.committed))
      ensures !open || old(initialized) ==>
                metadata.db.committed == old(metadata.db.committed) && initialized == old(initialized)
    {
      hide Agrees, Linked, ProperStore, Mirrors, Sync, WithStandalone;
      var masterLocked := IsMasterLocked();
      if masterLocked { return Failed(PluginIsLocked); }
      ghost var p := plugin.store;
      var ok := plugin.SetEncryptionKey(name, key);
      LockDoesNotMatter(metadata.db.committed, p, plugin.store, name, metadata.standalone);
      var _, _, _, _ := Initialize("");
      return if ok then Succeeded else Failed(PluginError);
    }

    /** What a resynchronisation without faults leaves: the index mirrors an unlocked plugin. */
    ghost predicate InSync(before: bool, t: Tables)
      reads this, metadata.db, plugin
    {
      if before || plugin.store.locked then initialized == before && metadata.db.committed == t
      else
        && Mirrors(t, metadata.db.committed, plugin.store.collections.Keys, OpenSecrets(plugin.store, encrypted),
                   LockedNames(plugin.store, encrypted), metadata.standalone, metadata.collectionRow, metadata.secretRow)
        && metadata.db.committed == Sync(t, plugin.store.collections.Keys, OpenSecrets(plugin.store, encrypted),
                                         LockedNames(plugin.store, encrypted), metadata.standalone,
                                         metadata.collectionRow, metadata.secretRow)
        && (initialized <==> LockedNames(plugin.store, encrypted) == {})
    }

    method MasterLock()
      requires Valid()
      modifies `open
      ensures Valid() && !open
    {
      open := false;
    }

    /** MetadataDatabase::unlock: a closed database opens with its key only; on an open one the key is set again. */
    method UnlockDatabase(key: string) returns (ok: bool)
      requires Valid()
      modifies `open, `masterKey, metadata.db
      ensures Valid() && Counts()
      ensures |key| != 64 ==> !ok && open == old(open) && metadata.db.committed == old(metadata.db.committed)
      ensures ok ==> open
      ensures open && !old(open) ==> masterKey == Some(key) && old(masterKey) in {None, Some(key)}
      ensures masterKey == old(masterKey) || (old(masterKey) == None && masterKey == Some(key))
      ensures old(open) ==> open && masterKey == old(masterKey) && metadata.db.committed == old(metadata.db.committed)
      ensures metadata.db.committed in {old(metadata.db.committed), WithStandalone(old(metadata.db.committed))}
      ensures Undisturbed() ==>
                && (ok <==> |key| == 64 && (old(open) || old(masterKey) in {None, Some(key)}))
                && (ok ==> metadata.db.committed == if old(open) then old(metadata.db.committed)
                                                    else WithStandalone(old(metadata.db.committed)))
                && (!ok ==> open == old(open) && masterKey == old(masterKey) &&
                            metadata.db.committed == old(metadata.db.committed))
    {
      if |key| != 64 { return false; }
      if open {
        var failed := metadata.db.Fails(); // one transaction that holds a PRAGMA and no row
        ok := !failed;
      } else {
        ok := OpenDatabase(key);
      }
    }

    /** masterUnlock: a locked database is opened by its own key, or not at all. */
    method MasterUnlock(key: string) returns (ok: bool)
      requires Valid()
      modifies this, metadata.db, plugin`faults
      ensures Valid() && Counts() && (old(initialized) ==> initialized)
      ensures |key| != 64 ==> !ok && metadata.db.committed == old(metadata.db.committed)
      ensures open && !old(open) ==> masterKey == Some(key) && old(masterKey) in {None, Some(key)}
      ensures masterKey == old(masterKey) || (old(masterKey) == None && masterKey == Some(key))
      ensures ok ==> open
      // without faults: opened by the right key, and then in sync; otherwise left alone
      ensures Undisturbed() ==>
                if |key| == 64 && (old(open) || old(masterKey) in {None, Some(key)}) then
                  && open && masterKey == (if old(open) then old(masterKey) else Some(key))
                  && InSync(old(initialized), if old(open) then old(metadata.db.committed)
                                              else WithStandalone(old(metadata.db.committed)))
                  && (ok <==> old(initialized) || !plugin.store.locked || encrypted)
                else
                  && !ok && open == old(open) && masterKey == old(masterKey) && initialized == old(initialized)
                  && metadata.db.committed == old(metadata.db.committed)
    {
      hide Agrees, Linked, ProperStore, Mirrors, Sync, WithStandalone;
      ok := UnlockDatabase(key);
      if !ok { return; }
      var done, _, _, _ := Initialize(key);
      ok := done;
    }

    /** setMasterLockKey, with reencrypt: the key changes only from the old one to a new one of 64 digits. */
    method SetMasterLockKey(oldKey: string, newKey: string) returns (ok: bool)
      requires Valid()
      modifies this, metadata.db, plugin`faults
      ensures Valid() && Counts() && (old(initialized) ==> initialized)
      ensures |oldKey| != 64 || |newKey| != 64 ==> !ok
      ensures ok ==> open && masterKey == Some(newKey)
      ensures !old(open) && old(masterKey).Some? && old(masterKey) != Some(oldKey) ==>
                !ok && !open && masterKey == old(masterKey)
      ensures Undisturbed() ==>
                var unlocks := |oldKey| == 64 && (old(open) || old(masterKey) in {None, Some(oldKey)});
                var t := if unlocks && !old(open) then WithStandalone(old(metadata.db.committed))
                         else old(metadata.db.committed);
                if unlocks && |newKey| == 64 then
                  && open && masterKey == Some(newKey) && InSync(old(initialized), t)
                  && (ok <==> old(initialized) || !plugin.store.locked || encrypted)
                else
                  && !ok && open == (old(open) || unlocks) && initialized == old(initialized) && metadata.db.committed == t
                  && masterKey == if unlocks && !old(open) then Some(oldKey) else old(masterKey)
    {
      hide Agrees, Linked, ProperStore, Mirrors, Sync, WithStandalone;
      ok := UnlockDatabase(oldKey);
      if !ok { return; }
      var locked := IsMasterLocked();
      if locked { return false; }
      if |newKey| != 64 { return false; }
      var failed := metadata.db.Fails();
      if failed { return false; }
      masterKey := Some(newKey);
      var done, _, _, _ := Initialize(newKey);
      ok := done;
    }

    /** lock, unlock and setLockCode of the plugin itself. */
    method SetPluginLock(lock: bool) returns (ok: bool)
      requires Valid()
      modifies this, metadata.db, plugin
      ensures Valid() && Counts() && (old(initialized) ==> initialized)
      ensures plugin.store == old(plugin.store).(locked := if ok then lock else old(plugin.store.locked))
      ensures lock ==> open == old(open) && masterKey == old(masterKey) && initialized == old(initialized) &&
                       metadata.db.committed == old(metadata.db.committed)
      // without faults: a plugin that was unlocked is brought into the index, if the database is open or can be opened
      ensures Undisturbed() ==> ok
      ensures Undisturbed() && !lock && old(open) ==>
                InSync(old(initialized), old(metadata.db.committed)) && open && masterKey == old(masterKey)
      ensures Undisturbed() && !lock && !old(open) && (old(initialized) || old(masterKey) !in {None, Some("")}) ==>
                && initialized == old(initialized) && metadata.db.committed == old(metadata.db.committed)
                && !open && masterKey == old(masterKey)
      ensures Undisturbed() && !lock && !old(open) && !old(initialized) && old(masterKey) in {None, Some("")} ==>
                InSync(false, WithStandalone(old(metadata.db.committed))) && open && masterKey == Some("")
    {
      hide Agrees, Linked, ProperStore, Mirrors, Sync, WithStandalone;
      ok := plugin.SetLock(lock);
      PluginLockDoesNotMatter(metadata.db.committed, old(plugin.store), plugin.store, metadata.standalone);
      if !lock {
        var _, _, _, _ := Initialize("");
      }
    }
  }

  datatype Operation =
    | Create(name: string, collectionRow: CollectionRow)
    | Remove(name: string)
    | Set(secret: SecretKey, row: SecretRow)
    | SetStandalone(secret: SecretKey, row: SecretRow)
    | Unset(secret: SecretKey)
    | GenerateOrImport(secret: SecretKey, row: SecretRow, key: string)
    | Key(name: string, key: string)
    | LockMaster
    | UnlockMaster(key: string)
    | RekeyMaster(key: string, newKey: string)
    | LockPlugin(lock: bool)
    | Synchronise

  /** What callers promise: new collections have proper names, standalone secrets go to the standalone collection. */
  ghost predicate Callable(op: Operation, w: PluginWrapper) {
    match op
    case Create(name, _) => ProperName(name, w.metadata.standalone)
    case SetStandalone(k, _) => w.encrypted && w.metadata.standalone(k.0)
    case Key(_, _) => w.encrypted
    case _ => true
  }

  // ---- the ideal wrapper ----------------------------------------------------------------------------

  /** What does not change about a wrapper. */
  datatype Setup = Setup(encrypted: bool, canStoreKeys: bool, opens: (string, string) -> bool, standalone: Standalone,
                         collectionRow: CollectionRow, secretRow: SecretRow)

  datatype View = View(initialized: bool, open: bool, masterKey: Option<string>, tables: Tables, store: Store)

  predicate Usable(v: View) {
    v.open && !v.store.locked
  }

  /** The collection is there and the wrapper may change it. */
  predicate Unlocked(g: Setup, v: View, name: string) {
    g.encrypted ==> name in v.store.collections && !v.store.collections[name]
  }

  predicate NewSecret(v: View, k: SecretKey) {
    k.0 in v.tables.collections && k !in v.tables.secrets
  }

  function Added(v: View, k: SecretKey, row: SecretRow, apart: bool): View {
    v.(tables := v.tables.(secrets := v.tables.secrets[k := row]),
       store := if apart then v.store else v.store.(secrets := v.store.secrets + {k}))
  }

  function Opened(v: View, key: string): View {
    v.(open := true, masterKey := Some(key), tables := WithStandalone(v.tables))
  }

  function Synced(g: Setup, v: View): View {
    if v.initialized || v.store.locked then v
    else
      var locked := LockedNames(v.store, g.encrypted);
      v.(tables := Sync(v.tables, v.store.collections.Keys, OpenSecrets(v.store, g.encrypted), locked, g.standalone,
                        g.collectionRow, g.secretRow),
         initialized := locked == {})
  }

  function Initialized(g: Setup, v: View): View {
    if v.initialized then v
    else if v.open then Synced(g, v)
    else if v.masterKey in {None, Some("")} then Synced(g, Opened(v, ""))
    else v
  }

  /** `key` unlocks the database, or it is open already. */
  predicate Unlocks(v: View, key: string) {
    |key| == 64 && (v.open || v.masterKey in {None, Some(key)})
  }

  /** An operation during which nothing fails, on plain values: no transaction, no statement, no order of steps. */
  function Ideal(g: Setup, v: View, op: Operation): View {
    match op
    case Create(name, row) =>
      if Usable(v) && name !in v.tables.collections then
        v.(tables := v.tables.(collections := v.tables.collections[name := row]),
           store := v.store.(collections := v.store.collections[name :=
             g.encrypted && !KeepsUnlocked(row.usesDeviceLockKey, row.unlockSemantic)]))
      else v
    case Remove(name) =>
      if Usable(v) then v.(tables := DeleteCollection(v.tables, name), store := StoreWithout(v.store, name)) else v
    case Set(k, row) =>
      var apart := !g.encrypted && g.standalone(k.0);
      if Usable(v) && NewSecret(v, k) && Unlocked(g, v, k.0) && (apart || k.0 in v.store.collections) then
        Added(v, k, row, apart)
      else v
    case SetStandalone(k, row) =>
      if Usable(v) && NewSecret(v, k) then Added(v, k, row, true) else v
    case Unset(k) =>
      if Usable(v) && Unlocked(g, v, k.0) then
        v.(tables := v.tables.(secrets := v.tables.secrets - {k}), store := v.store.(secrets := v.store.secrets - {k}))
      else v
    case GenerateOrImport(k, row, key) =>
      if Usable(v) && g.canStoreKeys && NewSecret(v, k) && k.0 in v.store.collections
         && (v.store.collections[k.0] ==> key != "" && g.opens(k.0, key)) then
        Added(v, k, row, false)
      else v
    case Key(name, key) =>
      if v.open then Synced(g, v.(store := WithKey(v.store, name, key, g.opens))) else v
    case LockMaster => v.(open := false)
    case UnlockMaster(key) =>
      if !Unlocks(v, key) then v else Synced(g, if v.open then v else Opened(v, key))
    case RekeyMaster(key, newKey) =>
      if !Unlocks(v, key) then v
      else
        var u := if v.open then v else Opened(v, key);
        if |newKey| == 64 then Synced(g, u.(masterKey := Some(newKey))) else u
    case LockPlugin(lock) =>
      var u := v.(store := v.store.(locked := lock));
      if lock then u else Initialized(g, u)
    case Synchronise => Initialized(g, v)
  }

  function IdealRun(g: Setup, v: View, ops: seq<Operation>): View
    decreases |ops|
  {
    if ops == [] then v else Ideal(g, IdealRun(g, v, ops[..|ops| - 1]), ops[|ops| - 1])
  }

  /** The operations on collections and secrets. */
  method PerformOnData(w: PluginWrapper, op: Operation)
    requires w.Valid() && Callable(op, w)
    requires op.Create? || op.Remove? || op.Set? || op.SetStandalone? || op.Unset? || op.GenerateOrImport?
    modifies w.metadata.db, w.plugin
    ensures w.Valid() && w.Counts()
    ensures w.Undisturbed() ==> w.Abs() == Ideal(w.Fixed(), old(w.Abs()), op)
  {
    hide Agrees, Linked, ProperStore, OnlyLockChanged, DeleteCollection, StoreWithout;
    match op {
      case Create(name, row) => var _ := w.CreateCollection(name, row);
      case Remove(name) => var _ := w.RemoveCollection(name);
      case Set(k, row) => var _ := w.SetSecret(k, row);
      case SetStandalone(k, row) => var _ := w.SetStandaloneSecret(k, row);
      case Unset(k) => var _ := w.RemoveSecret(k);
      case GenerateOrImport(k, row, key) => var _, _ := w.StoreKey(k, row, key);
    }
  }

  /** One operation keeps the agreement, whatever fails; and it is the ideal one if nothing does. */
  method Perform(w: PluginWrapper, op: Operation)
    requires w.Valid() && Callable(op, w)
    modifies w, w.metadata.db, w.plugin
    ensures w.Valid() && w.Counts() && (old(w.initialized) ==> w.initialized)
    ensures w.Undisturbed() ==> w.Abs() == Ideal(w.Fixed(), old(w.Abs()), op)
  {
    hide Agrees, Linked, ProperStore, OnlyLockChanged, Sync, Mirrors, WithStandalone, LockedNames, OpenSecrets;
    match op {
      case Key(name, key) => var _ := w.SetEncryptionKey(name, key);
      case LockMaster => w.MasterLock();
      case UnlockMaster(key) => var _ := w.MasterUnlock(key);
      case RekeyMaster(key, newKey) => var _ := w.SetMasterLockKey(key, newKey);
      case LockPlugin(lock) => var _ := w.SetPluginLock(lock);
      case Synchronise => var _, _, _, _ := w.Initialize("");
      case _ => PerformOnData(w, op);
    }
  }

  /**
   Index agreement over whole runs: whatever is called in whatever order, and whichever plugin calls and statements
   fail on the way, once the wrapper is initialized its index and its plugin hold the same names. A run in which nothing
   fails is the ideal one.
   */
  method Run(w: PluginWrapper, ops: seq<Operation>)
    requires w.Valid() && forall i :: 0 <= i < |ops| ==> Callable(ops[i], w)
    modifies w, w.metadata.db, w.plugin
    ensures w.Valid() && w.Counts() && (old(w.initialized) ==> w.initialized)
    ensures w.initialized ==> Agrees(w.metadata.db.committed, w.plugin.store, w.metadata.standalone)
    ensures w.metadata.db.counter == 0
    ensures w.Undisturbed() ==> w.Abs() == IdealRun(w.Fixed(), old(w.Abs()), ops)
  {
    hide Ideal;
    for i := 0 to |ops|
      invariant w.Valid() && w.Counts() && (old(w.initialized) ==> w.initialized)
      invariant w.Undisturbed() ==> w.Abs() == IdealRun(w.Fixed(), old(w.Abs()), ops[..i])
    {
      assert ops[..i + 1][..i] == ops[..i];
      Perform(w, ops[i]);
    }
    assert ops[..|ops|] == ops;
  }

  /** Appends one identifier per name. */
  method Identified(cname: string, snames: seq<string>, before: seq<SecretKey>) returns (identifiers: seq<SecretKey>)
    requires Distinct(snames) && Distinct(before) && forall k :: k in before ==> k.0 != cname
    ensures Distinct(identifiers)
    ensures forall k :: k in identifiers <==> k in before || (k.0 == cname && k.1 in snames)
  {
    identifiers := before;
    for i := 0 to |snames|
      invariant Distinct(identifiers)
      invariant forall k :: k in identifiers <==> k in before || (k.0 == cname && k.1 in snames[..i])
    {
      identifiers := identifiers + [(cname, snames[i])];
    }
  }

  lemma SurveyIsReported(names: seq<string>, identifiers: seq<SecretKey>, locked: seq<string>, p: Store,
                         standalone: Standalone)
    requires Lists(names, p.collections.Keys) && ProperStore(p, standalone) && forall c :: c in locked ==> c in names
    requires forall k :: k in identifiers <==> k in p.secrets && k.0 in names && k.0 !in locked
    ensures Reported(Members(names), Members(identifiers), Members(locked), standalone)
    ensures Members(names) == p.collections.Keys && (Members(locked) == {} <==> locked == [])
    ensures forall c :: c in Members(locked) <==> c in locked
    ensures forall k :: k in Members(identifiers) <==> k in p.secrets && k.0 !in Members(locked)
  {
    assert forall c :: c in locked <==> c in Members(locked);
    if locked != [] { assert locked[0] in Members(locked); }
  }

  lemma SyncedAgrees(t: Tables, names: seq<string>, identifiers: seq<SecretKey>, p: Store, standalone: Standalone,
                     collectionRow: CollectionRow, secretRow: SecretRow)
    requires Lists(names, p.collections.Keys) && ProperStore(p, standalone) && Linked(t)
    requires forall k :: k in identifiers <==> k in p.secrets && k.0 in names
    ensures Agrees(Sync(t, Members(names), Members(identifiers), {}, standalone, collectionRow, secretRow), p, standalone)
  {
    SyncIsExact(t, Members(names), Members(identifiers), {}, standalone, collectionRow, secretRow);
    hide Sync;
  }
}
