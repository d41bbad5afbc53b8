/**
 The metadata database of a storage plugin (daemon/SecretsImpl/metadatadb.cpp): statements against the two tables,
 each of which may fail and then changes nothing, and the resynchronisation from plugin data.
 */
module MetadataDbs {
  import opened Basics
  import opened MetadataTables
  import opened Transactions
  import opened UnlockSemantics

  /** Inside a transaction of one level: only the working copy may differ. */
  ghost predicate OnlyWorking(before: State<Tables>, after: State<Tables>) {
    after == before.(working := after.working) && (Linked(before.working) ==> Linked(after.working))
  }

  type NamesBy = map<string, seq<string>>

  predicate InNames(m: NamesBy, k: SecretKey) {
    k.0 in m && k.1 in m[k.0]
  }

  lemma WithoutNone(t: Tables)
    ensures WithoutSecrets(t, {}) == t
  {
    assert t.secrets - {} == t.secrets;
  }

  lemma WithNone(t: Tables, row: SecretRow)
    ensures WithSecrets(t, {}, row) == t
  {
    assert t.secrets + map[] == t.secrets;
  }

  lemma OnlyWorkingTrans(a: State<Tables>, b: State<Tables>, c: State<Tables>)
    ensures OnlyWorking(a, a)
    ensures OnlyWorking(a, b) && OnlyWorking(b, c) ==> OnlyWorking(a, c)
    ensures OnlyWorking(a, b) ==> b.counter == a.counter
  {
  }

  /** Grouping the plugin's identifiers by collection loses and adds none. */
  method GroupByCollection(identifiers: seq<SecretKey>) returns (m: NamesBy)
    ensures forall k :: InNames(m, k) <==> k in identifiers
    ensures Distinct(identifiers) ==> forall c :: c in m ==> Distinct(m[c])
  {
    m := map[];
    for i := 0 to |identifiers|
      invariant forall k :: InNames(m, k) <==> k in identifiers[..i]
      invariant Distinct(identifiers) ==> forall c :: c in m ==> Distinct(m[c])
    {
      var (c, s) := identifiers[i];
      assert identifiers[..i + 1] == identifiers[..i] + [identifiers[i]];
      if Distinct(identifiers) {
        assert !InNames(m, (c, s));
      }
      m := m[c := (if c in m then m[c] else []) + [s]];
    }
    assert identifiers[..|identifiers|] == identifiers;
  }

  class MetadataDb {
    const db: Database<Tables>
    const standalone: Standalone
    const collectionRow: CollectionRow // what is assumed of rows found only in the plugin
    const secretRow: SecretRow

    constructor (db: Database<Tables>, standalone: Standalone, defaultEncryption: string, defaultAuthentication: string,
                 pluginName: string, pluginIsEncryptedStorage: bool)
      ensures this.db == db && this.standalone == standalone
      ensures collectionRow == CollectionRow("imported", false,
                                             if pluginIsEncryptedStorage then pluginName else defaultEncryption,
                                             defaultAuthentication, CUSTOM_LOCK_KEEP_UNLOCKED, NO_ACCESS_CONTROL)
      ensures secretRow == SecretRow(collectionRow, "", "")
    {
      this.db, this.standalone := db, standalone;
      var row := CollectionRow("imported", false, if pluginIsEncryptedStorage then pluginName else defaultEncryption,
                               defaultAuthentication, CUSTOM_LOCK_KEEP_UNLOCKED, NO_ACCESS_CONTROL);
      collectionRow, secretRow := row, SecretRow(row, "", "");
    }

    // ---- statements ---------------------------------------------------------------------------------

    /** collectionMetadata, for its answer whether there is such a row. */
    method HasCollection(name: string) returns (ok: bool, exists_: bool)
      modifies db`faults
      ensures db.faults >= old(db.faults) && (ok <==> db.faults == old(db.faults))
      ensures ok ==> (exists_ <==> name in db.working.collections)
      ensures !ok ==> !exists_
    {
      var failed := db.Fails();
      ok, exists_ := !failed, !failed && name in db.working.collections;
    }

    /** secretMetadata, likewise. */
    method HasSecret(k: SecretKey) returns (ok: bool, exists_: bool)
      modifies db`faults
      ensures db.faults >= old(db.faults) && (ok <==> db.faults == old(db.faults))
      ensures ok ==> (exists_ <==> k in db.working.secrets)
      ensures !ok ==> !exists_
    {
      var failed := db.Fails();
      ok, exists_ := !failed, !failed && k in db.working.secrets;
    }

    /** Refused if the row is there; otherwise the tables have that row more, and no other change. */
    method InsertCollectionMetadata(name: string, row: CollectionRow) returns (ok: bool)
      modifies db
      ensures db.faults >= old(db.faults)
      ensures ok <==> db.faults == old(db.faults) && name !in old(db.working).collections
      ensures ok ==> db.working == Tables(old(db.working).collections[name := row], old(db.working).secrets)
      ensures ok ==> InsertCollection(old(db.working), name, row) == Some(db.working)
      ensures db.Abs() == if ok then WriteCall(old(db.Abs()), db.working) else old(db.Abs())
    {
      var failed := db.Fails();
      var after := InsertCollection(db.working, name, row);
      ok := !failed && after.Some?;
      if ok { db.Execute(after.value); }
    }

    /** The collection goes, and along the foreign key its secrets; every other row stays. */
    method DeleteCollectionMetadata(name: string) returns (ok: bool)
      modifies db
      ensures db.faults >= old(db.faults) && (ok <==> db.faults == old(db.faults))
      ensures db.Abs() == if ok then WriteCall(old(db.Abs()), DeleteCollection(old(db.working), name)) else old(db.Abs())
      ensures ok ==> db.working.collections == old(db.working).collections - {name}
      ensures ok ==> forall k :: k in db.working.secrets <==> k in old(db.working).secrets && k.0 != name
      ensures ok ==> forall k :: k in db.working.secrets ==> db.working.secrets[k] == old(db.working).secrets[k]
    {
      var failed := db.Fails();
      ok := !failed;
      if ok { db.Execute(DeleteCollection(db.working, name)); }
    }

    /** Refused if the row is there or the collection is not; otherwise the tables have that row more. */
    method InsertSecretMetadata(k: SecretKey, row: SecretRow) returns (ok: bool)
      modifies db
      ensures db.faults >= old(db.faults)
      ensures ok <==> db.faults == old(db.faults) && k !in old(db.working).secrets && k.0 in old(db.working).collections
      ensures ok ==> db.working == Tables(old(db.working).collections, old(db.working).secrets[k := row])
      ensures ok ==> InsertSecret(old(db.working), k, row) == Some(db.working)
      ensures db.Abs() == if ok then WriteCall(old(db.Abs()), db.working) else old(db.Abs())
    {
      var failed := db.Fails();
      var after := InsertSecret(db.working, k, row);
      ok := !failed && after.Some?;
      if ok { db.Execute(after.value); }
    }

    method DeleteSecretMetadata(k: SecretKey) returns (ok: bool)
      modifies db
      ensures db.faults >= old(db.faults) && (ok <==> db.faults == old(db.faults))
      ensures db.Abs() == if ok then WriteCall(old(db.Abs()), DeleteSecret(old(db.working), k)) else old(db.Abs())
      ensures ok ==> db.working == Tables(old(db.working).collections, old(db.working).secrets - {k})
    {
      var failed := db.Fails();
      ok := !failed;
      if ok { db.Execute(DeleteSecret(db.working, k)); }
    }

    method CollectionNames() returns (ok: bool, names: seq<string>)
      modifies db`faults
      ensures db.faults >= old(db.faults) && (ok <==> db.faults == old(db.faults))
      ensures ok ==> Lists(names, Listed(db.working, standalone))
    {
      var failed := db.Fails();
      ok := !failed;
      names := Listing(Listed(db.working, standalone));
    }

    method SecretNames(collection: string) returns (ok: bool, names: seq<string>)
      modifies db`faults
      ensures db.faults >= old(db.faults) && (ok <==> db.faults == old(db.faults))
      ensures ok ==> forall s :: s in names <==> (collection, s) in db.working.secrets
    {
      var failed := db.Fails();
      ok := !failed;
      names := Listing(set k | k in db.working.secrets && k.0 == collection :: k.1);
    }

    // ---- resynchronisation --------------------------------------------------------------------------

    method DeleteStaleCollections(cnames: seq<string>, names: seq<string>) returns (ok: bool)
      requires db.counter == 1
      modifies db
      ensures OnlyWorking(old(db.Abs()), db.Abs())
      ensures db.faults >= old(db.faults) && (ok <==> db.faults == old(db.faults))
      ensures db.working.collections.Keys <= old(db.working).collections.Keys
      ensures ok ==> db.working == WithoutCollections(old(db.working), Members(cnames) - Members(names))
    {
      ok := true;
      ghost var before := db.working;
      ghost var gone: set<string> := {};
      for i := 0 to |cnames|
        invariant OnlyWorking(old(db.Abs()), db.Abs())
        invariant db.faults >= old(db.faults) && (ok <==> db.faults == old(db.faults))
        invariant db.working.collections.Keys <= before.collections.Keys
        invariant gone == Members(cnames[..i]) - Members(names)
        invariant ok ==> db.working == WithoutCollections(before, gone)
      {
        if cnames[i] !in names {
          var deleted := DeleteCollectionMetadata(cnames[i]);
          if !deleted { ok := false; }
          DeleteOneMore(before, gone, cnames[i]);
          gone := gone + {cnames[i]};
        }
      }
      assert cnames[..|cnames|] == cnames;
    }

    method AddMissingCollections(cnames: seq<string>, names: seq<string>) returns (ok: bool)
      requires db.counter == 1 && Distinct(names)
      requires forall c :: c in names && c !in cnames ==> c !in db.working.collections
      modifies db
      ensures OnlyWorking(old(db.Abs()), db.Abs())
      ensures db.faults >= old(db.faults) && (ok <==> db.faults == old(db.faults))
      ensures ok ==> db.working == WithCollections(old(db.working), Members(names) - Members(cnames), collectionRow)
    {
      ok := true;
      ghost var before := db.working;
      ghost var added: set<string> := {};
      for i := 0 to |names|
        invariant OnlyWorking(old(db.Abs()), db.Abs())
        invariant db.faults >= old(db.faults) && (ok <==> db.faults == old(db.faults))
        invariant added == Members(names[..i]) - Members(cnames)
        invariant ok ==> db.working == WithCollections(before, added, collectionRow)
      {
        if names[i] !in cnames {
          var inserted := InsertCollectionMetadata(names[i], collectionRow);
          if !inserted { ok := false; }
          InsertOneMore(before, added, names[i], collectionRow);
          added := added + {names[i]};
        }
      }
      assert names[..|names|] == names;
    }

    method InitializeCollectionsFromPluginData(names: seq<string>) returns (ok: bool)
      requires db.counter == 1 && Distinct(names) && forall c :: c in names ==> c != "" && !standalone(c)
      modifies db
      ensures OnlyWorking(old(db.Abs()), db.Abs())
      ensures db.faults >= old(db.faults) && (ok <==> db.faults == old(db.faults))
      ensures ok ==> db.working == SyncCollections(old(db.working), Members(names), standalone, collectionRow)
    {
      var listed, cnames := CollectionNames();
      if !listed { return false; }
      ghost var before := db.working;
      assert Members(cnames) == Listed(before, standalone);
      hide WithoutCollections, WithCollections, Linked;
      var deleted := DeleteStaleCollections(cnames, names);
      ok := AddMissingCollections(cnames, names);
      if !deleted { ok := false; }
    }

    /** The recorded secret names, by collection. */
    method RecordedNames() returns (ok: bool, m: NamesBy)
      modifies db`faults
      ensures db.faults >= old(db.faults) && (ok <==> db.faults == old(db.faults))
      ensures ok ==> forall k :: InNames(m, k) <==> k in Recorded(db.working, standalone)
    {
      m := map[];
      var cnames;
      ok, cnames := CollectionNames();
      if !ok { return; }
      for i := 0 to |cnames|
        invariant ok && db.faults == old(db.faults)
        invariant forall k :: InNames(m, k) <==> k in db.working.secrets && k.0 in cnames[..i]
      {
        var snames;
        ok, snames := SecretNames(cnames[i]);
        if !ok { return; }
        m := m[cnames[i] := snames];
      }
    }

    /** The stale secrets of one collection. */
    method DeleteStaleIn(cname: string, snames: seq<string>, plugin: NamesBy, ghost done: set<SecretKey>,
                         ghost t: Tables)
      returns (ok: bool, ghost gone: set<SecretKey>)
      requires db.counter == 1
      modifies db
      ensures OnlyWorking(old(db.Abs()), db.Abs()) && db.working.collections == old(db.working).collections
      ensures db.faults >= old(db.faults) && (ok <==> db.faults == old(db.faults))
      ensures db.working.secrets.Keys <= old(db.working).secrets.Keys
      ensures forall k :: k in gone <==> k in done || (k.0 == cname && k.1 in snames && !InNames(plugin, k))
      ensures ok && old(db.working) == WithoutSecrets(t, done) ==> db.working == WithoutSecrets(t, gone)
    {
      ok, gone := true, done;
      for i := 0 to |snames|
        invariant OnlyWorking(old(db.Abs()), db.Abs()) && db.working.collections == old(db.working).collections
        invariant db.faults >= old(db.faults) && (ok <==> db.faults == old(db.faults))
        invariant db.working.secrets.Keys <= old(db.working).secrets.Keys
        invariant forall k :: k in gone <==> k in done || (k.0 == cname && k.1 in snames[..i] && !InNames(plugin, k))
        invariant ok && old(db.working) == WithoutSecrets(t, done) ==> db.working == WithoutSecrets(t, gone)
      {
        if cname !in plugin || snames[i] !in plugin[cname] {
          var deleted := DeleteSecretMetadata((cname, snames[i]));
          if !deleted { ok := false; }
          DeleteOneMoreSecret(t, gone, (cname, snames[i]));
          gone := gone + {(cname, snames[i])};
        }
      }
    }

    method DeleteStaleSecrets(recorded: NamesBy, plugin: NamesBy, locked: seq<string>, ghost stale: set<SecretKey>)
      returns (ok: bool)
      requires db.counter == 1
      requires forall k :: k in stale <==> InNames(recorded, k) && k.0 !in locked && !InNames(plugin, k)
      modifies db
      ensures OnlyWorking(old(db.Abs()), db.Abs()) && db.working.collections == old(db.working).collections
      ensures db.faults >= old(db.faults) && (ok <==> db.faults == old(db.faults))
      ensures db.working.secrets.Keys <= old(db.working).secrets.Keys
      ensures ok ==> db.working == WithoutSecrets(old(db.working), stale)
    {
      hide WithoutSecrets, OnlyWorking;
      ok := true;
      ghost var t := db.working;
      ghost var gone: set<SecretKey> := {};
      WithoutNone(t);
      OnlyWorkingTrans(old(db.Abs()), db.Abs(), db.Abs());
      var cnames := Listing(recorded.Keys);
      for i := 0 to |cnames|
        invariant db.counter == 1 && OnlyWorking(old(db.Abs()), db.Abs()) && db.working.collections == t.collections
        invariant db.faults >= old(db.faults) && (ok <==> db.faults == old(db.faults))
        invariant db.working.secrets.Keys <= t.secrets.Keys
        invariant forall k :: k in gone <==> k in stale && k.0 in cnames[..i]
        invariant ok ==> db.working == WithoutSecrets(t, gone)
      {
        if cnames[i] !in locked {
          ghost var before := db.Abs();
          var deleted;
          deleted, gone := DeleteStaleIn(cnames[i], recorded[cnames[i]], plugin, gone, t);
          OnlyWorkingTrans(old(db.Abs()), before, db.Abs());
          if !deleted { ok := false; }
        }
      }
      assert gone == stale;
    }

    /** The secrets of one collection that are not recorded. */
    method AddMissingIn(cname: string, snames: seq<string>, recorded: NamesBy, ghost done: set<SecretKey>, ghost t: Tables)
      returns (ok: bool, ghost added: set<SecretKey>)
      requires db.counter == 1 && Distinct(snames) && cname !in (set k | k in done :: k.0)
      requires forall s :: s in snames && !InNames(recorded, (cname, s)) ==> (cname, s) !in t.secrets
      modifies db
      ensures OnlyWorking(old(db.Abs()), db.Abs())
      ensures db.faults >= old(db.faults) && (ok ==> db.faults == old(db.faults))
      ensures forall k :: k in added <==> k in done || (k.0 == cname && k.1 in snames && !InNames(recorded, k))
      ensures old(db.working) == WithSecrets(t, done, secretRow) ==>
                && (ok ==> db.working == WithSecrets(t, added, secretRow))
                && ((forall k :: k in added && k !in done ==> k.0 in t.collections) && db.faults == old(db.faults) ==> ok)
    {
      ok, added := true, done;
      for i := 0 to |snames|
        invariant OnlyWorking(old(db.Abs()), db.Abs())
        invariant db.faults >= old(db.faults) && (ok ==> db.faults == old(db.faults))
        invariant forall k :: k in added <==> k in done || (k.0 == cname && k.1 in snames[..i] && !InNames(recorded, k))
        invariant old(db.working) == WithSecrets(t, done, secretRow) ==>
                    && (ok ==> db.working == WithSecrets(t, added, secretRow))
                    && (db.faults == old(db.faults) ==>
                          (forall k :: k in added && k !in done ==> k.0 in t.collections) ==> ok)
      {
        if cname !in recorded || snames[i] !in recorded[cname] {
          ghost var k := (cname, snames[i]);
          assert k !in added;
          var inserted := InsertSecretMetadata((cname, snames[i]), secretRow);
          if !inserted { ok := false; }
          if cname in t.collections {
            InsertOneMoreSecret(t, added, k, secretRow);
          }
          added := added + {k};
        }
      }
    }

    method AddMissingSecrets(recorded: NamesBy, plugin: NamesBy, ghost missing: set<SecretKey>)
      returns (ok: bool)
      requires db.counter == 1 && forall c :: c in plugin ==> Distinct(plugin[c])
      requires forall k :: k in missing <==> InNames(plugin, k) && !InNames(recorded, k)
      requires forall k :: k in missing ==> k !in db.working.secrets
      modifies db
      ensures OnlyWorking(old(db.Abs()), db.Abs())
      ensures db.faults >= old(db.faults) && (ok ==> db.faults == old(db.faults))
      ensures ok ==> db.working == WithSecrets(old(db.working), missing, secretRow)
      ensures (forall k :: k in missing ==> k.0 in old(db.working).collections) && db.faults == old(db.faults) ==> ok
    {
      hide WithSecrets, OnlyWorking;
      ok := true;
      ghost var t := db.working;
      ghost var added: set<SecretKey> := {};
      WithNone(t, secretRow);
      OnlyWorkingTrans(old(db.Abs()), db.Abs(), db.Abs());
      var cnames := Listing(plugin.Keys);
      for i := 0 to |cnames|
        invariant db.counter == 1 && OnlyWorking(old(db.Abs()), db.Abs())
        invariant db.faults >= old(db.faults) && (ok ==> db.faults == old(db.faults))
        invariant forall k :: k in added <==> k in missing && k.0 in cnames[..i]
        invariant ok ==> db.working == WithSecrets(t, added, secretRow)
        invariant (forall k :: k in missing ==> k.0 in t.collections) && db.faults == old(db.faults) ==> ok
      {
        ghost var before := db.Abs();
        var inserted;
        inserted, added := AddMissingIn(cnames[i], plugin[cnames[i]], recorded, added, t);
        OnlyWorkingTrans(old(db.Abs()), before, db.Abs());
        if !inserted { ok := false; }
      }
      assert added == missing;
    }

    method InitializeSecretsFromPluginData(identifiers: seq<SecretKey>, locked: seq<string>) returns (ok: bool)
      requires db.counter == 1 && Linked(db.working) && Distinct(identifiers)
      requires forall k :: k in identifiers ==> k.0 != "" && !standalone(k.0) && k.0 !in locked
      modifies db
      ensures OnlyWorking(old(db.Abs()), db.Abs())
      ensures db.faults >= old(db.faults) && (ok ==> db.faults == old(db.faults))
      ensures ok ==> db.working == SyncSecrets(old(db.working), Members(identifiers), Members(locked), standalone, secretRow)
      ensures (forall k :: k in identifiers ==> k.0 in old(db.working).collections) && db.faults == old(db.faults) ==> ok
    {
      var read, recorded := RecordedNames();
      if !read { return false; }
      var plugin := GroupByCollection(identifiers);
      ghost var t := db.working;
      ghost var keys := Members(identifiers);
      hide WithSecrets, WithoutSecrets, OnlyWorking;
      assert forall c :: c in locked <==> c in Members(locked);
      var deleted := DeleteStaleSecrets(recorded, plugin, locked, Known(t, Members(locked), standalone) - keys);
      OnlyWorkingTrans(old(db.Abs()), db.Abs(), db.Abs());
      ghost var between := db.Abs();
      ok := AddMissingSecrets(recorded, plugin, keys - Recorded(t, standalone));
      OnlyWorkingTrans(old(db.Abs()), between, db.Abs());
      if !deleted { ok := false; }
    }

    /**
     Both steps in one transaction, as initialize runs them. Without a failing statement the outcome is exact;
     with one it is committed as far as it went, and reported.
     */
    method Resynchronise(names: seq<string>, identifiers: seq<SecretKey>, locked: seq<string>)
      returns (ok: bool)
      requires db.counter == 0 && db.committed == db.working && Linked(db.working)
      requires Distinct(names) && Distinct(identifiers)
      requires Reported(Members(names), Members(identifiers), Members(locked), standalone)
      modifies db
      ensures db.counter == 0 && db.committed == db.working && Linked(db.working)
      ensures db.faults >= old(db.faults) && (ok <==> db.faults == old(db.faults))
      ensures ok ==> db.committed == Sync(old(db.committed), Members(names), Members(identifiers), Members(locked),
                                          standalone, collectionRow, secretRow)
      ensures ok ==> Mirrors(old(db.committed), db.committed, Members(names), Members(identifiers), Members(locked),
                             standalone, collectionRow, secretRow)
    {
      assert forall c :: c in names <==> c in Members(names);
      assert forall k :: k in identifiers <==> k in Members(identifiers);
      assert forall c :: c in locked <==> c in Members(locked);
      var _ := db.BeginTransaction();
      hide SyncSecrets;
      var collectionsOk := InitializeCollectionsFromPluginData(names);
      if collectionsOk {
        CollectionsAreExact(old(db.working), Members(names), standalone, collectionRow);
      }
      hide SyncCollections;
      var secretsOk := InitializeSecretsFromPluginData(identifiers, locked);
      var _ := db.CommitTransaction();
      ok := collectionsOk && secretsOk;
      SyncIsExact(old(db.working), Members(names), Members(identifiers), Members(locked), standalone, collectionRow,
                  secretRow);
      hide Mirrors, Reported, Linked;
    }
  }
}
