/**
 The two metadata tables (daemon/SecretsImpl/metadatadb.cpp:36-62) as values: unique collection names, unique
 (collection, secret) names, a foreign key from secrets to collections, and deletion that cascades along it.
 */
module MetadataTables {
  import opened Basics

  type SecretKey = (string, string) // collection name, secret name

  datatype CollectionRow = CollectionRow(
    owner: string, usesDeviceLockKey: bool, encryptionPlugin: string, authenticationPlugin: string,
    unlockSemantic: int, accessControlMode: int)

  datatype SecretRow = SecretRow(access: CollectionRow, secretType: string, cryptoPlugin: string)

  datatype Tables = Tables(collections: map<string, CollectionRow>, secrets: map<SecretKey, SecretRow>)

  /** The foreign key. */
  ghost predicate Linked(t: Tables) {
    forall k :: k in t.secrets ==> k.0 in t.collections
  }

  function InsertCollection(t: Tables, name: string, row: CollectionRow): Option<Tables> {
    if name in t.collections then None else Some(t.(collections := t.collections[name := row]))
  }

  function InsertSecret(t: Tables, k: SecretKey, row: SecretRow): Option<Tables> {
    if k in t.secrets || k.0 !in t.collections then None else Some(t.(secrets := t.secrets[k := row]))
  }

  function DeleteCollection(t: Tables, name: string): Tables {
    Tables(t.collections - {name}, map k | k in t.secrets && k.0 != name :: t.secrets[k])
  }

  function DeleteSecret(t: Tables, k: SecretKey): Tables {
    t.(secrets := t.secrets - {k})
  }

  // ---- several rows at once -------------------------------------------------------------------------

  function WithoutCollections(t: Tables, gone: set<string>): Tables {
    Tables(t.collections - gone, map k | k in t.secrets && k.0 !in gone :: t.secrets[k])
  }

  function WithCollections(t: Tables, added: set<string>, row: CollectionRow): Tables {
    t.(collections := t.collections + map c | c in added :: row)
  }

  function WithoutSecrets(t: Tables, gone: set<SecretKey>): Tables {
    t.(secrets := t.secrets - gone)
  }

  function WithSecrets(t: Tables, added: set<SecretKey>, row: SecretRow): Tables {
    t.(secrets := t.secrets + map k | k in added :: row)
  }

  lemma DeleteOneMore(t: Tables, gone: set<string>, name: string)
    ensures DeleteCollection(WithoutCollections(t, gone), name) == WithoutCollections(t, gone + {name})
  {
    assert t.collections - gone - {name} == t.collections - (gone + {name});
  }

  lemma InsertOneMore(t: Tables, added: set<string>, name: string, row: CollectionRow)
    requires name !in t.collections && name !in added
    ensures InsertCollection(WithCollections(t, added, row), name, row) == Some(WithCollections(t, added + {name}, row))
  {
    assert (t.collections + map c | c in added :: row)[name := row] ==
           t.collections + map c | c in added + {name} :: row;
  }

  lemma DeleteOneMoreSecret(t: Tables, gone: set<SecretKey>, k: SecretKey)
    ensures DeleteSecret(WithoutSecrets(t, gone), k) == WithoutSecrets(t, gone + {k})
  {
    assert t.secrets - gone - {k} == t.secrets - (gone + {k});
  }

  lemma InsertOneMoreSecret(t: Tables, added: set<SecretKey>, k: SecretKey, row: SecretRow)
    requires k !in t.secrets && k !in added && k.0 in t.collections
    ensures InsertSecret(WithSecrets(t, added, row), k, row) == Some(WithSecrets(t, added + {k}, row))
  {
    assert (t.secrets + map j | j in added :: row)[k := row] == t.secrets + map j | j in added + {k} :: row;
  }

  // ---- resynchronisation ----------------------------------------------------------------------------

  /** How the daemon tells the notional collection of standalone secrets, in any letter case, from the others. */
  type Standalone = string -> bool

  /** The collections a listing without the standalone one gives. */
  function Listed(t: Tables, standalone: Standalone): set<string> {
    set c | c in t.collections && c != "" && !standalone(c)
  }

  function SyncCollections(t: Tables, names: set<string>, standalone: Standalone, row: CollectionRow): Tables {
    WithCollections(WithoutCollections(t, Listed(t, standalone) - names), names - Listed(t, standalone), row)
  }

  /** Known secrets of listed collections that are not locked. */
  function Known(t: Tables, locked: set<string>, standalone: Standalone): set<SecretKey> {
    set k | k in t.secrets && k.0 in Listed(t, standalone) && k.0 !in locked
  }

  /** Every known secret of a listed collection. */
  function Recorded(t: Tables, standalone: Standalone): set<SecretKey> {
    set k | k in t.secrets && k.0 in Listed(t, standalone)
  }

  function SyncSecrets(t: Tables, keys: set<SecretKey>, locked: set<string>, standalone: Standalone, row: SecretRow): Tables {
    WithSecrets(WithoutSecrets(t, Known(t, locked, standalone) - keys), keys - Recorded(t, standalone), row)
  }

  function Sync(t: Tables, names: set<string>, keys: set<SecretKey>, locked: set<string>, standalone: Standalone,
                collectionRow: CollectionRow, secretRow: SecretRow): Tables
  {
    SyncSecrets(SyncCollections(t, names, standalone, collectionRow), keys, locked, standalone, secretRow)
  }

  /** What a plugin may report: proper names, and secrets of unlocked collections only. */
  ghost predicate Reported(names: set<string>, keys: set<SecretKey>, locked: set<string>, standalone: Standalone) {
    && (forall c :: c in names ==> c != "" && !standalone(c))
    && (forall k :: k in keys ==> k.0 in names && k.0 !in locked)
    && locked <= names
  }

  lemma SyncKeepsLinks(t: Tables, names: set<string>, keys: set<SecretKey>, locked: set<string>,
                       standalone: Standalone, collectionRow: CollectionRow, secretRow: SecretRow)
    requires Linked(t) && Reported(names, keys, locked, standalone)
    ensures Linked(Sync(t, names, keys, locked, standalone, collectionRow, secretRow))
  {
  }

  /**
   Outside the standalone collection the index `r` is what the plugin reports: its collections, and for each
   unlocked collection exactly its secrets; of a locked collection the secrets already known stay known. No row
   of `t` that remains has changed, and standalone rows are left alone.
   */
  ghost predicate Mirrors(t: Tables, r: Tables, names: set<string>, keys: set<SecretKey>, locked: set<string>,
                          standalone: Standalone, collectionRow: CollectionRow, secretRow: SecretRow)
  {
    && (forall c :: c in r.collections <==> c in names || (c in t.collections && (c == "" || standalone(c))))
    && (forall c :: c in r.collections && c in t.collections ==> r.collections[c] == t.collections[c])
    && (forall c :: c in r.collections && c !in t.collections ==> r.collections[c] == collectionRow)
    && (forall k :: k in r.secrets <==>
          if k.0 == "" || standalone(k.0) || k.0 in locked then k in t.secrets else k in keys)
    && (forall k :: k in r.secrets && k in t.secrets ==> r.secrets[k] == t.secrets[k])
    && (forall k :: k in r.secrets && k !in t.secrets ==> r.secrets[k] == secretRow)
  }

  lemma SyncIsExact(t: Tables, names: set<string>, keys: set<SecretKey>, locked: set<string>,
                    standalone: Standalone, collectionRow: CollectionRow, secretRow: SecretRow)
    requires Linked(t) && Reported(names, keys, locked, standalone)
    ensures Mirrors(t, Sync(t, names, keys, locked, standalone, collectionRow, secretRow),
                    names, keys, locked, standalone, collectionRow, secretRow)
  {
    var m := SyncCollections(t, names, standalone, collectionRow);
    CollectionsAreExact(t, names, standalone, collectionRow);
    SecretsAreExact(m, keys, locked, standalone, secretRow);
  }

  lemma CollectionsAreExact(t: Tables, names: set<string>, standalone: Standalone, row: CollectionRow)
    requires Linked(t) && (forall c :: c in names ==> c != "" && !standalone(c))
    ensures var m := SyncCollections(t, names, standalone, row);
            && Linked(m)
            && (forall c :: c in m.collections <==> c in names || (c in t.collections && (c == "" || standalone(c))))
            && (forall c :: c in m.collections && c in t.collections ==> m.collections[c] == t.collections[c])
            && (forall c :: c in m.collections && c !in t.collections ==> m.collections[c] == row)
            && (forall k :: k in m.secrets <==> k in t.secrets && (k.0 in names || k.0 == "" || standalone(k.0)))
            && (forall k :: k in m.secrets ==> m.secrets[k] == t.secrets[k])
  {
  }

  lemma SecretsAreExact(m: Tables, keys: set<SecretKey>, locked: set<string>, standalone: Standalone, row: SecretRow)
    requires Linked(m) && forall k :: k in keys ==> k.0 in Listed(m, standalone) && k.0 !in locked
    ensures var r := SyncSecrets(m, keys, locked, standalone, row);
            && r.collections == m.collections
            && (forall k :: k in r.secrets <==>
                 if k.0 == "" || standalone(k.0) || k.0 in locked then k in m.secrets else k in keys)
            && (forall k :: k in r.secrets && k in m.secrets ==> r.secrets[k] == m.secrets[k])
            && (forall k :: k in r.secrets && k !in m.secrets ==> r.secrets[k] == row)
  {
  }

  lemma MirrorIsStable(t: Tables, r: Tables, again: Tables, names: set<string>, keys: set<SecretKey>,
                       locked: set<string>, standalone: Standalone, collectionRow: CollectionRow, secretRow: SecretRow)
    requires Reported(names, keys, locked, standalone)
    requires Mirrors(t, r, names, keys, locked, standalone, collectionRow, secretRow)
    requires Mirrors(r, again, names, keys, locked, standalone, collectionRow, secretRow)
    ensures again == r
  {
    assert again.collections == r.collections;
    assert again.secrets == r.secrets;
  }

  /** A second run against the same plugin changes nothing. */
  lemma SyncIsIdempotent(t: Tables, names: set<string>, keys: set<SecretKey>, locked: set<string>,
                         standalone: Standalone, collectionRow: CollectionRow, secretRow: SecretRow)
    requires Linked(t) && Reported(names, keys, locked, standalone)
    ensures var r := Sync(t, names, keys, locked, standalone, collectionRow, secretRow);
            Sync(r, names, keys, locked, standalone, collectionRow, secretRow) == r
  {
    hide Sync, Mirrors, Linked, Reported;
    var r := Sync(t, names, keys, locked, standalone, collectionRow, secretRow);
    SyncKeepsLinks(t, names, keys, locked, standalone, collectionRow, secretRow);
    SyncIsExact(t, names, keys, locked, standalone, collectionRow, secretRow);
    SyncIsExact(r, names, keys, locked, standalone, collectionRow, secretRow);
    MirrorIsStable(t, r, Sync(r, names, keys, locked, standalone, collectionRow, secretRow),
                   names, keys, locked, standalone, collectionRow, secretRow);
  }
}
