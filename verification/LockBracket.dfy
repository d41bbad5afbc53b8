/**
 Compound operations that unlock a collection, act, and lock it again
 (daemon/SecretsImpl/pluginfunctionwrappers.cpp:990-1434, daemon/CryptoImpl/cryptopluginfunctionwrappers.cpp:18-549).

 Which calls into the plugin fail is left open; a failing one changes nothing. Locking with an empty key is taken to
 succeed unless the wrapper is master-locked, in which case no key can be set at all.
 */
module LockBracket {
  import opened Basics
  import opened UnlockSemantics

  type Key = string

  datatype Collection = Collection(locked: bool, key: Key, secrets: map<string, string>)

  type Collections = map<string, Collection>

  datatype Action = Store(name: string, data: string) | Read(name: string) | Remove(name: string) | Find

  /** What an action that succeeds does to the secrets. */
  function Applied(action: Action, secrets: map<string, string>): map<string, string> {
    match action
    case Store(name, data) => secrets[name := data]
    case Remove(name) => secrets - {name}
    case Read(_) => secrets
    case Find => secrets
  }

  /** What can be read is there, and the actions that change the index need it open. */
  predicate Permitted(action: Action, secrets: map<string, string>, masterLocked: bool) {
    match action
    case Read(name) => name in secrets
    case Find => true
    case Store(_, _) => !masterLocked
    case Remove(_) => !masterLocked
  }

  /** An empty key never unlocks. */
  predicate Opens(key: Key, c: Collection) {
    key != "" && key == c.key
  }

  function WithLock(cs: Collections, name: string, locked: bool): Collections
    requires name in cs
  {
    cs[name := cs[name].(locked := locked)]
  }

  datatype Code = Succeeded | DecryptionError | IncorrectCode | IsLocked | InvalidCollection | AlreadyExists | PluginError

  class Vault {
    var collections: Collections
    const masterLocked: bool
    ghost var faults: nat // calls that failed so far

    /** Any call may fail, for whatever reason of the plugin's own. */
    method Fails() returns (failed: bool)
      modifies `faults
      ensures faults == old(faults) + if failed then 1 else 0
    {
      failed := *;
      if failed { faults := faults + 1; }
    }

    twostate predicate Counts()
      reads this
    {
      faults >= old(faults)
    }

    twostate predicate Undisturbed()
      reads this
    {
      faults == old(faults)
    }

    method IsCollectionLocked(name: string) returns (ok: bool, locked: bool)
      modifies `faults
      ensures Counts() && (ok <==> Undisturbed() && name in collections)
      ensures ok ==> locked == collections[name].locked
    {
      var failed := Fails();
      ok := !failed && name in collections;
      locked := if ok then collections[name].locked else false;
    }

    /** A wrong key may be taken, but does not unlock. */
    method SetEncryptionKey(name: string, key: Key) returns (ok: bool)
      modifies `collections, `faults
      ensures Counts()
      ensures masterLocked || name !in old(collections) ==> !ok && collections == old(collections)
      ensures !masterLocked && name in old(collections) && key == "" ==>
                ok && collections == WithLock(old(collections), name, true)
      ensures !masterLocked && name in old(collections) && key != "" && ok && Opens(key, old(collections)[name]) ==>
                collections == WithLock(old(collections), name, false)
      ensures name in old(collections) && key != "" && !(ok && Opens(key, old(collections)[name])) ==>
                collections == old(collections)
      ensures Undisturbed() && !masterLocked && name in old(collections) ==> ok
    {
      if masterLocked || name !in collections { return false; }
      if key == "" {
        collections := WithLock(collections, name, true);
        return true;
      }
      var failed := Fails();
      ok := !failed;
      if ok && Opens(key, collections[name]) {
        collections := WithLock(collections, name, false);
      }
    }

    /** setSecret, getSecret, removeSecret or findSecrets; the two that change the index need the master lock open. */
    method Act(name: string, action: Action) returns (ok: bool, data: string)
      modifies `collections, `faults
      ensures Counts()
      ensures ok ==> name in old(collections) && !old(collections)[name].locked
      ensures ok ==> collections ==
                       var c := old(collections)[name];
                       old(collections)[name := c.(secrets := Applied(action, c.secrets))]
      ensures ok && action.Read? ==>
                action.name in old(collections)[name].secrets && data == old(collections)[name].secrets[action.name]
      ensures !ok ==> collections == old(collections)
      ensures Undisturbed() && name in old(collections) && !old(collections)[name].locked ==>
                (ok <==> Permitted(action, old(collections)[name].secrets, masterLocked))
    {
      data := "";
      var failed := Fails();
      ok := !failed && name in collections && !collections[name].locked
            && Permitted(action, collections[name].secrets, masterLocked);
      if ok {
        var c := collections[name];
        if action.Read? { data := c.secrets[action.name]; }
        collections := collections[name := c.(secrets := Applied(action, c.secrets))];
      }
    }

    /** The first half of these operations: the collection is unlocked if need be, or left as it was. */
    method OpenWith(name: string, key: Key) returns (code: Code, wasLocked: bool)
      modifies `collections, `faults
      ensures Counts()
      ensures name !in old(collections) ==> code == PluginError && collections == old(collections)
      ensures code == Succeeded ==>
                && name in old(collections) && wasLocked == old(collections)[name].locked
                && (wasLocked ==> Opens(key, old(collections)[name]) && !masterLocked)
                && collections == if wasLocked then WithLock(old(collections), name, false) else old(collections)
      ensures code != Succeeded ==> collections == old(collections)
      ensures Undisturbed() && name in old(collections) ==>
                var c := old(collections)[name];
                code == if !c.locked then Succeeded else if masterLocked then DecryptionError
                        else if Opens(key, c) then Succeeded else IncorrectCode
    {
      var ok, locked := IsCollectionLocked(name);
      if !ok { return PluginError, false; }
      wasLocked := locked;
      if !locked { return Succeeded, wasLocked; }
      ok := SetEncryptionKey(name, key);
      if !ok {
        var _ := SetEncryptionKey(name, "");
        return DecryptionError, wasLocked;
      }
      ok, locked := IsCollectionLocked(name);
      if !ok {
        var _ := SetEncryptionKey(name, "");
        return DecryptionError, wasLocked;
      }
      if locked {
        var _ := SetEncryptionKey(name, "");
        return IncorrectCode, wasLocked;
      }
      return Succeeded, wasLocked;
    }

    /**
     unlockCollectionAndStoreSecret, -ReadSecret, -RemoveSecret and unlockAndFindSecrets. `acted` tells that the
     collection could be used.
     */
    method UnlockAndAct(name: string, key: Key, usesDeviceLockKey: bool, unlockSemantic: int, action: Action)
      returns (code: Code, acted: bool, data: string)
      modifies `collections, `faults
      ensures Counts()
      ensures name !in old(collections) ==> code != Succeeded && collections == old(collections)
      ensures name in old(collections) ==>
                var c := old(collections)[name];
                var keeps := unlockSemantic == if usesDeviceLockKey then DEVICE_LOCK_KEEP_UNLOCKED
                                               else CUSTOM_LOCK_KEEP_UNLOCKED;
                // the lock is left as it was, but for a collection that is to be kept unlocked and could be
                && collections == old(collections)[name := Collection(c.locked && !(acted && keeps), c.key,
                     if code == Succeeded then Applied(action, c.secrets) else c.secrets)]
                // a wrong key gets at nothing
                && (acted ==> !c.locked || Opens(key, c))
                && (code == Succeeded ==> acted)
                && (code == Succeeded && action.Read? ==> action.name in c.secrets && data == c.secrets[action.name])
      // without faults: the right key, or none where none is needed, does it
      ensures Undisturbed() && name in old(collections) ==>
                var c := old(collections)[name];
                && (acted <==> c.locked ==> Opens(key, c) && !masterLocked)
                && (code == Succeeded <==> acted && Permitted(action, c.secrets, masterLocked))
                && (code == IncorrectCode <==> c.locked && !masterLocked && !Opens(key, c))
                && (code == DecryptionError <==> c.locked && masterLocked)
    {
      acted, data := false, "";
      var originallyLocked;
      code, originallyLocked := OpenWith(name, key);
      if code != Succeeded { return; }
      acted := true;
      var ok;
      ok, data := Act(name, action);
      code := if ok then Succeeded else PluginError;
      if originallyLocked && !KeepsUnlocked(usesDeviceLockKey, unlockSemantic) {
        var _ := SetEncryptionKey(name, "");
      }
    }

    // ---- crypto operations --------------------------------------------------------------------------

    /** unlockCollection */
    method Unlock(name: string, key: Key) returns (code: Code, wasLocked: bool)
      modifies `collections, `faults
      ensures Counts()
      ensures code in {Succeeded, IncorrectCode, PluginError}
      ensures name !in old(collections) ==> collections == old(collections) && code == PluginError && !wasLocked
      ensures name in old(collections) ==>
                && (collections == old(collections) ||
                    (old(collections)[name].locked && wasLocked && Opens(key, old(collections)[name]) && !masterLocked &&
                     collections == WithLock(old(collections), name, false)))
                && (wasLocked ==> old(collections)[name].locked)
                && (code == Succeeded ==> !collections[name].locked)
                && (code == IncorrectCode ==> collections == old(collections))
      ensures Undisturbed() && name in old(collections) ==>
                var c := old(collections)[name];
                && (code == Succeeded <==> c.locked ==> Opens(key, c) && !masterLocked)
                && (code == IncorrectCode <==> c.locked && !masterLocked && !Opens(key, c))
                && wasLocked == c.locked
    {
      wasLocked := false;
      var ok, locked := IsCollectionLocked(name);
      if !ok { return PluginError, wasLocked; }
      wasLocked := locked;
      if !locked { return Succeeded, wasLocked; }
      ok := SetEncryptionKey(name, key);
      if !ok { return PluginError, wasLocked; }
      ok, locked := IsCollectionLocked(name);
      if !ok { return PluginError, wasLocked; }
      return if locked then IncorrectCode else Succeeded, wasLocked;
    }

    /** sign, verify, encrypt, decrypt and initializeCipherSession of a plugin that stores keys. */
    method UseKey(op: CryptoOperation, k: CryptoKey, collectionKey: Key) returns (code: Code, ghost used: bool)
      modifies `collections, `faults
      ensures Counts() && collections == old(collections)
      ensures code == Succeeded ==> used
      // a key without the parts that the operation works with is reached only in a collection that is or can be unlocked
      ensures var whole := k.privateKey != "" || k.secretKey != "" || (op in {Verify, Encrypt} && k.publicKey != "") ||
                           op == OtherSession;
              var open := k.collection in collections &&
                          (!collections[k.collection].locked || Opens(collectionKey, collections[k.collection]));
              && (used && !whole ==> open)
              && (whole ==> used)
              && (Undisturbed() ==>
                    (code == Succeeded <==>
                       whole || (open && (collections[k.collection].locked ==> !masterLocked))))
    {
      code, used := Succeeded, false;
      var wasLocked := false;
      if NeedsCollection(op, k) {
        code, wasLocked := Unlock(k.collection, collectionKey);
      }
      if code == Succeeded {
        used := true;
        var failed := Fails();
        code := if failed then PluginError else Succeeded;
      }
      if wasLocked {
        var _ := SetEncryptionKey(k.collection, "");
      }
    }

    // ---- checks and removal -------------------------------------------------------------------------

    /**
     collectionSecretPreCheck: the lock is not always restored. It is, unless the collection was locked, the key
     opened it, and either no relocking was asked for or the query right after unlocking failed (`blind`).
     */
    method PreCheck(name: string, key: Key, relockRequired: bool, secret: string, newSecret: bool)
      returns (code: Code, unlocked: bool, blind: bool)
      modifies `collections, `faults
      ensures Counts() && (blind ==> !Undisturbed())
      ensures name !in old(collections) ==> code != Succeeded && collections == old(collections)
      ensures name in old(collections) ==>
                var c := old(collections)[name];
                && collections == WithLock(old(collections), name, c.locked && !(unlocked && (blind || !relockRequired)))
                && (unlocked ==> c.locked && Opens(key, c) && !masterLocked)
                && (collections == old(collections) <==> !(unlocked && (blind || !relockRequired)))
                && (code == Succeeded && newSecret ==> secret !in c.secrets)
                && (code == AlreadyExists ==> newSecret && secret in c.secrets)
      // without faults
      ensures Undisturbed() ==> (code == InvalidCollection <==> name !in old(collections))
      ensures Undisturbed() && name in old(collections) ==>
                var c := old(collections)[name];
                && (unlocked <==> c.locked && Opens(key, c) && !masterLocked)
                && (code == Succeeded <==> !masterLocked && (c.locked ==> unlocked) && !(newSecret && secret in c.secrets))
                && (code == AlreadyExists <==> !masterLocked && (c.locked ==> unlocked) && newSecret && secret in c.secrets)
                && (code == IsLocked <==> c.locked && !masterLocked && !Opens(key, c))
    {
      unlocked, blind := false, false;
      var failed := Fails();
      if failed { return PluginError, unlocked, blind; }
      if name !in collections { return InvalidCollection, unlocked, blind; }
      var ok, locked := IsCollectionLocked(name);
      if !ok { return PluginError, unlocked, blind; }
      var originallyLocked := locked;
      if locked {
        ok := SetEncryptionKey(name, key);
        if !ok { return PluginError, unlocked, blind; }
        unlocked := !collections[name].locked;
        ok, locked := IsCollectionLocked(name);
        if !ok { return PluginError, unlocked, true; }
        if locked { return IsLocked, unlocked, blind; }
      }
      failed := Fails();
      var exists_ := secret in collections[name].secrets;
      if originallyLocked && relockRequired {
        var _ := SetEncryptionKey(name, "");
      }
      if failed || masterLocked { return PluginError, unlocked, blind; }
      return if exists_ && newSecret then AlreadyExists else Succeeded, unlocked, blind;
    }

    /** unlockAndRemoveCollection: a wrong key removes nothing; `unlocked` tells that the key opened the collection. */
    method UnlockAndRemoveCollection(name: string, key: Key) returns (code: Code, unlocked: bool)
      modifies `collections, `faults
      ensures Counts()
      ensures code == Succeeded ==>
                && name in old(collections) && (!old(collections)[name].locked || Opens(key, old(collections)[name]))
                && collections == old(collections) - {name}
      // a removal that fails leaves the collection open exactly if it was locked and the key opened it
      ensures unlocked ==> name in old(collections) && old(collections)[name].locked && Opens(key, old(collections)[name])
      ensures code != Succeeded ==>
                collections == if unlocked then WithLock(old(collections), name, false) else old(collections)
      ensures code == IsLocked ==> !unlocked
      ensures Undisturbed() ==>
                (code == Succeeded <==>
                   && name in old(collections) && !masterLocked
                   && (old(collections)[name].locked ==> Opens(key, old(collections)[name])))
      ensures Undisturbed() ==>
                (code == IsLocked <==>
                   && name in old(collections) && !masterLocked
                   && old(collections)[name].locked && !Opens(key, old(collections)[name]))
    {
      var before := collections;
      var opens, _ := Unlock(name, key);
      unlocked := name in collections && before[name].locked && !collections[name].locked;
      if opens == IncorrectCode { return IsLocked, unlocked; }
      if opens != Succeeded { return opens, unlocked; }
      var failed := Fails();
      if failed || masterLocked { return PluginError, unlocked; }
      collections := collections - {name};
      return Succeeded, unlocked;
    }

    // ---- re-encryption ------------------------------------------------------------------------------

    /** The plugin's own re-encryption of one collection that the old key opens. */
    method Reencrypt(name: string, oldKey: Key, newKey: Key) returns (ok: bool)
      modifies `collections, `faults
      ensures Counts()
      ensures ok ==> name in old(collections) && Opens(oldKey, old(collections)[name]) &&
                     collections == old(collections)[name := old(collections)[name].(key := newKey)]
      ensures !ok ==> collections == old(collections)
      ensures Undisturbed() ==> (ok <==> name in old(collections) && Opens(oldKey, old(collections)[name]))
    {
      var failed := Fails();
      ok := !failed && name in collections && Opens(oldKey, collections[name]);
      if ok { collections := collections[name := collections[name].(key := newKey)]; }
    }

    /** One round of the loop: the collection gets the new key or keeps the old one, and loses no secret. */
    method UnlockAndReencrypt(name: string, oldKey: Key, newKey: Key) returns (ok: bool)
      requires name in collections
      modifies `collections, `faults
      ensures Counts()
      ensures name in collections && collections == old(collections)[name := collections[name]]
      ensures Rekeyed(old(collections)[name], collections[name], oldKey, newKey, ok)
      ensures Undisturbed() ==> (ok <==> Opens(oldKey, old(collections)[name]))
    {
      var known, locked := IsCollectionLocked(name);
      if !known || locked {
        var _ := SetEncryptionKey(name, oldKey);
      }
      ok := Reencrypt(name, oldKey, newKey);
    }

    /**
     The first loop of unlockDeviceLockedCollectionsAndReencrypt: the collections whose metadata says they use the device
     lock key. A collection without metadata, or a query that fails, ends the operation.
     */
    method SelectDeviceLocked(usesDeviceLockKey: map<string, bool>) returns (ok: bool, selected: seq<string>)
      modifies `faults
      ensures Counts()
      ensures Distinct(selected) && forall n :: n in selected ==> n in collections
      ensures ok ==> forall n :: n in selected <==> n in collections && n in usesDeviceLockKey && usesDeviceLockKey[n]
      ensures ok ==> collections.Keys <= usesDeviceLockKey.Keys
      ensures Undisturbed() && !masterLocked ==> (ok <==> collections.Keys <= usesDeviceLockKey.Keys)
    {
      selected := [];
      var failed := Fails();
      if failed { return false, selected; }
      var names := Listing(collections.Keys);
      assert forall n :: n in names ==> n in collections;
      for i := 0 to |names|
        invariant Counts() && Distinct(selected)
        invariant forall n :: n in selected <==> n in names[..i] && n in usesDeviceLockKey && usesDeviceLockKey[n]
        invariant forall n :: n in names[..i] ==> n in usesDeviceLockKey
      {
        failed := Fails();
        assert names[i] in names && names[i] !in names[..i];
        if failed || masterLocked || names[i] !in usesDeviceLockKey { return false, selected; }
        if usesDeviceLockKey[names[i]] { selected := selected + [names[i]]; }
      }
      assert names[..|names|] == names;
      ok := true;
    }

    /** Both loops: what was not selected, or everything if the selection fails, is left alone. */
    method UnlockDeviceLockedAndReencrypt(usesDeviceLockKey: map<string, bool>, oldKey: Key, newKey: Key)
      returns (ok: bool, selected: bool)
      modifies `collections, `faults
      ensures Counts() && collections.Keys == old(collections).Keys
      ensures !selected ==> !ok && collections == old(collections)
      ensures selected ==> forall n :: n in collections ==>
                n in usesDeviceLockKey &&
                if usesDeviceLockKey[n] then
                  || Rekeyed(old(collections)[n], collections[n], oldKey, newKey, true)
                  || (!ok && Rekeyed(old(collections)[n], collections[n], oldKey, newKey, false))
                else collections[n] == old(collections)[n]
      ensures Undisturbed() && !masterLocked ==>
                (ok <==> forall n :: n in old(collections) ==>
                           n in usesDeviceLockKey && (usesDeviceLockKey[n] ==> Opens(oldKey, old(collections)[n])))
    {
      hide Rekeyed;
      var names;
      selected, names := SelectDeviceLocked(usesDeviceLockKey);
      if !selected { return false, selected; }
      ok := ReencryptAll(names, oldKey, newKey);
    }

    /**
     The second loop of unlockDeviceLockedCollectionsAndReencrypt, for the device-locked collections `names`: each is
     re-encrypted or keeps its key, the others are not touched, and a failure is reported exactly when one kept its key.
     */
    method ReencryptAll(names: seq<string>, oldKey: Key, newKey: Key) returns (ok: bool)
      requires forall n :: n in names ==> n in collections
      requires Distinct(names)
      modifies `collections, `faults
      ensures Counts() && collections.Keys == old(collections).Keys
      ensures forall n :: n in collections && n !in names ==> collections[n] == old(collections)[n]
      ensures forall n :: n in names ==>
                Rekeyed(old(collections)[n], collections[n], oldKey, newKey, true) ||
                (!ok && Rekeyed(old(collections)[n], collections[n], oldKey, newKey, false))
      ensures !ok ==> exists n :: n in names && Rekeyed(old(collections)[n], collections[n], oldKey, newKey, false)
      ensures Undisturbed() ==> (ok <==> forall n :: n in names ==> Opens(oldKey, old(collections)[n]))
    {
      ok := true;
      for i := 0 to |names|
        invariant Counts() && collections.Keys == old(collections).Keys
        invariant forall n :: n in collections && n !in names[..i] ==> collections[n] == old(collections)[n]
        invariant forall n :: n in names[..i] ==>
                    Rekeyed(old(collections)[n], collections[n], oldKey, newKey, true) ||
                    (!ok && Rekeyed(old(collections)[n], collections[n], oldKey, newKey, false))
        invariant !ok ==> exists n :: n in names[..i] && Rekeyed(old(collections)[n], collections[n], oldKey, newKey, false)
        invariant Undisturbed() ==> (ok <==> forall n :: n in names[..i] ==> Opens(oldKey, old(collections)[n]))
      {
        assert names[i] !in names[..i];
        var done := UnlockAndReencrypt(names[i], oldKey, newKey);
        assert names[i] in names[..i + 1];
        if !done { ok := false; }
      }
    }
  }

  ghost predicate Rekeyed(before: Collection, after: Collection, oldKey: Key, newKey: Key, done: bool) {
    && after.secrets == before.secrets
    && (after.locked && !before.locked ==> oldKey == "") && (before.locked && !after.locked ==> Opens(oldKey, before))
    && after.key == (if done then newKey else before.key) && (done ==> Opens(oldKey, before))
  }

  datatype CryptoOperation = Sign | Verify | Encrypt | Decrypt | OtherSession

  datatype CryptoKey = CryptoKey(collection: string, publicKey: string, privateKey: string, secretKey: string)

  /** A key that brings the components the operation works with is used as it is. */
  predicate NeedsCollection(op: CryptoOperation, k: CryptoKey) {
    match op
    case Sign => k.privateKey == "" && k.secretKey == ""
    case Decrypt => k.privateKey == "" && k.secretKey == ""
    case Verify => k.publicKey == "" && k.privateKey == "" && k.secretKey == ""
    case Encrypt => k.publicKey == "" && k.privateKey == "" && k.secretKey == ""
    case OtherSession => false
  }
}
