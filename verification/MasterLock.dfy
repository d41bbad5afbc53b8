/**
 The master lock (daemon/SecretsImpl/secrets.cpp:748-978): initialize and testLockCode over the durable
 record "plugin name, newline, check ciphertext".

 Key derivation is an arbitrary deterministic function of the lock code and the plugin asked for.
 */
module MasterLocks {
  import opened Basics
  import opened Bytes
  import opened MajorityVote
  import opened DataProtectors
  import opened DummyKeys

  datatype KeyData = KeyData(used: ByteArray, bkdbKey: ByteArray, deviceLockKey: ByteArray, cipherText: ByteArray)

  /** generateKeyData: lock code and plugin name (empty for any) to keys, check ciphertext and plugin used. */
  type Derivation = (ByteArray, ByteArray) -> Option<KeyData>

  const NEWLINE: Byte := 0x0a

  /** "no-key-derivation-cipher-plugin" */
  function Placeholder(): (p: ByteArray)
    ensures p != [] && NEWLINE !in p
  {
    [0x6e, 0x6f, 0x2d, 0x6b, 0x65, 0x79, 0x2d, 0x64, 0x65, 0x72, 0x69, 0x76, 0x61, 0x74, 0x69, 0x6f,
     0x6e, 0x2d, 0x63, 0x69, 0x70, 0x68, 0x65, 0x72, 0x2d, 0x70, 0x6c, 0x75, 0x67, 0x69, 0x6e]
  }

  // ---- the record -----------------------------------------------------------------------------------

  function Record(plugin: ByteArray, cipherText: ByteArray): ByteArray {
    plugin + [NEWLINE] + cipherText
  }

  /** QByteArray::indexOf: -1 when there is none. */
  function IndexOfNewline(record: ByteArray): (k: int)
    ensures -1 <= k < |record|
    ensures k >= 0 ==> record[k] == NEWLINE && NEWLINE !in record[..k]
    ensures k == -1 ==> NEWLINE !in record
    decreases |record|
  {
    if record == [] then -1
    else if record[0] == NEWLINE then 0
    else
      var k := IndexOfNewline(record[1..]);
      if k == -1 then
        assert record == [record[0]] + record[1..];
        -1
      else
        assert record[..k + 1] == [record[0]] + record[1..][..k];
        k + 1
  }

  /** The plugin part; QByteArray::mid with length -1 takes everything. */
  function PluginOf(record: ByteArray): ByteArray {
    var k := IndexOfNewline(record);
    if k == -1 then record else record[..k]
  }

  function CipherOf(record: ByteArray): ByteArray {
    record[IndexOfNewline(record) + 1..]
  }

  lemma PluginOfEmpty()
    ensures PluginOf([]) == [] && CipherOf([]) == []
  {
  }

  lemma {:induction false} NewlineOfRecord(plugin: ByteArray, cipherText: ByteArray)
    requires NEWLINE !in plugin
    ensures IndexOfNewline(Record(plugin, cipherText)) == |plugin|
    decreases |plugin|
  {
    if plugin != [] {
      assert Record(plugin, cipherText)[1..] == Record(plugin[1..], cipherText);
      NewlineOfRecord(plugin[1..], cipherText);
    }
  }

  /** Both parts of a record are read back as they were written. */
  lemma RecordRoundTrip(plugin: ByteArray, cipherText: ByteArray)
    requires NEWLINE !in plugin
    ensures PluginOf(Record(plugin, cipherText)) == plugin
    ensures CipherOf(Record(plugin, cipherText)) == cipherText
  {
    NewlineOfRecord(plugin, cipherText);
  }

  // ---- keys -----------------------------------------------------------------------------------------

  /**
   Deriving again with the plugin that was used gives the same keys; its name is a proper plugin name; the keys
   are 256 bits long, the first of them in hex.
   */
  ghost predicate Stable(derive: Derivation) {
    forall code, plugin :: derive(code, plugin).Some? ==>
      var k := derive(code, plugin).value;
      && derive(code, k.used) == Some(k)
      && k.used != [] && k.used != Placeholder() && NEWLINE !in k.used
      && |k.bkdbKey| == 64 && |k.deviceLockKey| == 32
  }

  function DummyKeyData(code: ByteArray, used: ByteArray): KeyData {
    KeyData(used, BookkeepingKey(code), DeviceLockKey(code), CheckText(code))
  }

  /** The keys initialize works with, given the plugin name of the record (empty when there is none). */
  function KeysFor(derive: Derivation, plugin: ByteArray, code: ByteArray): Option<KeyData> {
    if plugin == Placeholder() then Some(DummyKeyData(code, []))
    else if derive(code, plugin).Some? then derive(code, plugin)
    else if plugin == [] then Some(DummyKeyData(code, Placeholder()))
    else None
  }

  /** The keys testLockCode works with. */
  function KeysToTest(derive: Derivation, plugin: ByteArray, code: ByteArray): Option<KeyData> {
    if plugin == Placeholder() then Some(DummyKeyData(code, [])) else derive(code, plugin)
  }

  /** A plugin that can derive keys is named. */
  predicate Named(plugin: ByteArray) {
    plugin != [] && plugin != Placeholder()
  }

  /** Which keys these are, told by the derivation alone: a named plugin is used, and no other. */
  lemma KeysAreDerived(derive: Derivation, plugin: ByteArray, code: ByteArray)
    ensures Named(plugin) ==> KeysFor(derive, plugin, code) == KeysToTest(derive, plugin, code) == derive(code, plugin)
    ensures var k := KeysFor(derive, Placeholder(), code);
            k == KeysToTest(derive, Placeholder(), code) ==
            Some(KeyData([], BookkeepingKey(code), DeviceLockKey(code), CheckText(code)))
    ensures KeysToTest(derive, [], code) == derive(code, [])
    ensures KeysFor(derive, [], code) ==
            if derive(code, []).Some? then derive(code, [])
            else Some(KeyData(Placeholder(), BookkeepingKey(code), DeviceLockKey(code), CheckText(code)))
  {
    hide BookkeepingKey, DeviceLockKey, CheckText;
  }

  /** The ciphertext that a code gives with a plugin name that was read. */
  ghost predicate Fits(derive: Derivation, plugin: ByteArray, code: ByteArray, cipherText: ByteArray) {
    if plugin == Placeholder() then CheckText(code) == cipherText
    else derive(code, plugin).Some? && derive(code, plugin).value.cipherText == cipherText
  }

  /** testLockCode's answer on an intact record. */
  ghost predicate Accepts(derive: Derivation, record: ByteArray, code: ByteArray) {
    var k := KeysToTest(derive, PluginOf(record), code);
    record != [] && k.Some? && k.value.cipherText == CipherOf(record)
  }

  /** initialize's answer on an intact record, in UnlockMode. */
  ghost predicate Unlocks(derive: Derivation, record: ByteArray, code: ByteArray) {
    var k := KeysFor(derive, PluginOf(record), code);
    k.Some? && k.value.cipherText == CipherOf(record)
  }

  /** initialize and testLockCode agree with the derivation by the plugin that the record names. */
  lemma AnswersAreDerived(derive: Derivation, record: ByteArray, code: ByteArray)
    ensures var p := PluginOf(record);
            && (Accepts(derive, record, code) <==> record != [] && Fits(derive, p, code, CipherOf(record)))
            && (Unlocks(derive, record, code) <==>
                  || Fits(derive, p, code, CipherOf(record))
                  || (p == [] && derive(code, []) == None && CheckText(code) == CipherOf(record)))
    ensures var p := PluginOf(record);
            Named(p) ==>
              && (Accepts(derive, record, code) <==> Unlocks(derive, record, code))
              && (Accepts(derive, record, code) <==>
                    derive(code, p).Some? && derive(code, p).value.cipherText == CipherOf(record))
  {
    PluginOfEmpty();
    hide Placeholder, CheckText, BookkeepingKey, DeviceLockKey, PluginOf, CipherOf, KeysFor, KeysToTest;
    KeysAreDerived(derive, PluginOf(record), code);
  }

  /** What a record says about a code, whoever wrote it. */
  lemma RecordTells(derive: Derivation, used: ByteArray, cipherText: ByteArray, other: ByteArray)
    requires NEWLINE !in used
    ensures Accepts(derive, Record(used, cipherText), other) <==> Fits(derive, used, other, cipherText)
  {
    hide Placeholder, CheckText, BookkeepingKey, DeviceLockKey;
    RecordRoundTrip(used, cipherText);
  }

  /**
   Changing the code while the placeholder is recorded writes an empty plugin name: the new code is accepted
   afterwards if and only if the default plugin derives the dummy check text.
   */
  lemma PlaceholderRecordTells(derive: Derivation, code: ByteArray)
    ensures var k := KeysFor(derive, Placeholder(), code).value;
            Accepts(derive, Record(k.used, k.cipherText), code) <==>
            (derive(code, []).Some? && derive(code, []).value.cipherText == CheckText(code))
  {
    hide Placeholder, CheckText, BookkeepingKey, DeviceLockKey;
    RecordRoundTrip([], CheckText(code));
    assert Record([], CheckText(code)) == [NEWLINE] + CheckText(code);
  }

  /** A code that unlocks an intact record is also the one testLockCode accepts, unless no plugin is named. */
  lemma UnlockingCodeIsAccepted(derive: Derivation, record: ByteArray, code: ByteArray)
    requires record != [] && Unlocks(derive, record, code)
    ensures Accepts(derive, record, code) <==>
            (PluginOf(record) != [] || (derive(code, []).Some? && derive(code, []).value.cipherText == CipherOf(record)))
  {
    hide CheckText, BookkeepingKey, DeviceLockKey, IndexOfNewline;
  }

  // ---- the lock -------------------------------------------------------------------------------------

  datatype Mode = ModifyLockMode | UnlockMode | LockMode

  /** A folder the daemon may take for one that was never used: it looks empty, or is unreadable and gets reset. */
  ghost predicate TakenForUnused(r: Root, resets: bool) {
    MayRead(r, []) || (resets && Lost(r))
  }

  /** Some directory from which nothing can be read. */
  ghost predicate Lost(r: Root) {
    r.Present? && exists n :: n in r.dirs && ReadsNothing(r.dirs[n])
  }

  /** Nothing becomes readable, but for a folder that is reset. */
  ghost predicate Narrows(before: Root, after: Root, resets: bool) {
    || (forall v :: MayRead(after, v) ==> MayRead(before, v))
    || (resets && after == Absent && Lost(before))
  }

  /** So a second read gives what a first one could have given, or finds the folder empty. */
  lemma ReadAgain(before: Root, after: Root, resets: bool, v: ByteArray)
    requires Narrows(before, after, resets) && MayRead(after, v)
    ensures v != [] ==> MayRead(before, v)
    ensures v == [] ==> TakenForUnused(before, resets)
  {
    hide Lost;
  }

  /** The record that initialize stores when folder and memory agree on `record`; None if it stores none. */
  function StoredBy(derive: Derivation, record: ByteArray, code: ByteArray, mode: Mode, pathOk: bool): Option<ByteArray> {
    var k := KeysFor(derive, PluginOf(record), code);
    if pathOk && k.Some? && (mode == ModifyLockMode || (mode == UnlockMode && record == [])) then
      Some(Record(k.value.used, k.value.cipherText))
    else None
  }

  /** Decided before the call: initialize stores a record, fails to, and the old one does not survive that. */
  ghost predicate Breaks(derive: Derivation, root: Root, record: ByteArray, code: ByteArray, mode: Mode, pathOk: bool,
                         uuid: string, fault: Fault)
  {
    var data := StoredBy(derive, record, code, mode, pathOk);
    data.Some? && StoreStatus(root, uuid, fault) != Success && !Survives(root, uuid, fault, record, data.value)
  }

  /** Which keys initialize may have cached. */
  ghost predicate Derived(derive: Derivation, k: KeyData) {
    exists plugin, code :: KeysFor(derive, plugin, code) == Some(k)
  }

  lemma DerivedFits(derive: Derivation, plugin: ByteArray, code: ByteArray)
    requires Stable(derive) && KeysFor(derive, plugin, code).Some?
    ensures var k := KeysFor(derive, plugin, code).value;
            Derived(derive, k) && |k.bkdbKey| == 64 && |k.deviceLockKey| == 32 && NEWLINE !in k.used
  {
    hide Placeholder, CheckText;
  }

  /** memcpy */
  method CopyInto(target: array<Byte>, offset: nat, source: ByteArray)
    requires offset + |source| <= target.Length
    modifies target
    ensures target[..] == old(target[..offset]) + source + old(target[offset + |source|..])
  {
    for i := 0 to |source|
      invariant target[..offset] == old(target[..offset])
      invariant target[offset..offset + i] == source[..i]
      invariant target[offset + |source|..] == old(target[offset + |source|..])
    {
      target[offset + i] := source[i];
    }
    assert target[..] == target[..offset] + target[offset..offset + |source|] + target[offset + |source|..];
  }

  class MasterLock {
    const derive: Derivation
    const folder: Folder
    const resets: bool // built without notifications: corrupted data is deleted

    var locked: bool
    var noLockCode: bool
    var keyData: array?<Byte> // both keys, one after the other; null until the first success
    var deviceOffset: nat
    var bkdbLength: nat
    var deviceLength: nat

    ghost var keys: Option<KeyData> // what keyData holds
    ghost var record: ByteArray     // the record last matched or stored

    ghost predicate KeysCached()
      reads `keyData, `deviceOffset, `bkdbLength, `deviceLength, `keys, keyData
    {
      if keyData == null then keys == None
      else
        && keys.Some? && Derived(derive, keys.value)
        && keyData.Length == 96 && deviceOffset == bkdbLength == 64 && deviceLength == 32
        && keyData[..64] == keys.value.bkdbKey && keyData[64..] == keys.value.deviceLockKey
    }

    /** While unlocked, the keys in memory are those whose ciphertext is in the record. */
    ghost predicate Valid()
      reads this, keyData
    {
      && Stable(derive) && KeysCached()
      && (!locked ==> keys.Some? && record != [] && CipherOf(record) == keys.value.cipherText)
    }

    /** The record is what the folder holds. */
    ghost predicate Intact()
      reads `record, folder
    {
      Holds(folder.root, record)
    }

    /** The folder may be in any state: a fresh one, one that was stored before, or what a crash left. */
    constructor (derive: Derivation, folder: Folder, resets: bool, ghost record: ByteArray)
      requires Stable(derive)
      ensures Valid() && locked && !noLockCode && keyData == null
      ensures this.derive == derive && this.folder == folder && this.resets == resets && this.record == record
    {
      this.derive, this.folder, this.resets := derive, folder, resets;
      locked, noLockCode := true, false;
      keyData, deviceOffset, bkdbLength, deviceLength := null, 0, 0, 0;
      keys, this.record := None, record;
    }

    /** A fresh DataProtector on the record's folder, read once. False when the record cannot be had. */
    method ReadRecord(pathOk: bool) returns (ok: bool, data: ByteArray)
      modifies folder
      ensures old(Intact()) ==> folder.root == old(folder.root)
      ensures old(Intact()) && pathOk ==> ok && data == record
      ensures ok ==> pathOk && MayRead(old(folder.root), data)
      ensures !ok ==> data == []
      ensures !ok && pathOk ==> Lost(old(folder.root))
      ensures Narrows(old(folder.root), folder.root, resets)
      ensures Dirs(folder.root).Keys <= Dirs(old(folder.root)).Keys
    {
      hide Holds, MayRead, Pruned, Outcome, Lost;
      if !pathOk { return false, []; }
      var protector := new DataProtector(folder);
      ghost var before := folder.root;
      var stuck: set<string> := *;
      var status, bytes, chosen := protector.GetData(stuck);
      if Holds(before, record) {
        HoldsIsRead(before, folder.root, chosen, record, status, bytes);
      }
      Evolves(before, folder.root, chosen, status, bytes);
      if status == Irretrievable {
        if resets {
          var removed: bool := *;
          if removed { folder.Become(Absent); }
        }
        return false, [];
      }
      return status == Success, if status == Success then bytes else [];
    }

    method WriteRecord(data: ByteArray, uuid: string, fault: Fault) returns (ok: bool)
      requires data != []
      modifies folder, `record
      ensures ok <==> StoreStatus(old(folder.root), uuid, fault) == Success
      ensures fault == NoFault && uuid !in Dirs(old(folder.root)) ==> ok
      ensures StoreLeaves(old(folder.root), folder.root, data, uuid, fault)
      ensures ok ==> record == data && Intact()
      ensures !ok ==> record == old(record)
      ensures !ok && old(Intact()) ==> (Intact() <==> Survives(old(folder.root), uuid, fault, record, data))
    {
      hide Holds, Survives;
      var protector := new DataProtector(folder);
      ghost var before := folder.root;
      var status := protector.PutData(data, uuid, fault, {});
      ok := status == Success;
      if ok {
        record := data;
        StoredHolds(uuid, data);
      } else if Holds(before, record) {
        SurvivalIsExact(before, folder.root, uuid, fault, record, data);
      }
    }

    /** The keys for initialize: generated, or the dummy keys if there is nothing to generate them with. */
    method MakeKeys(code: ByteArray, plugin: ByteArray) returns (k: Option<KeyData>)
      ensures k == KeysFor(derive, plugin, code)
    {
      k := if plugin == Placeholder() then None else derive(code, plugin);
      if k.Some? || Named(plugin) { return; } // a plugin that is named but cannot be used fails
      var cipherText, bkdbKey, deviceLockKey := SpecifyDummyKeys(code);
      return Some(KeyData(if plugin == [] then Placeholder() else [], bkdbKey, deviceLockKey, cipherText));
    }

    /** The keys for testLockCode, which does not fall back. */
    method MakeKeysToTest(code: ByteArray, plugin: ByteArray) returns (k: Option<KeyData>)
      ensures k == KeysToTest(derive, plugin, code)
    {
      if plugin == Placeholder() {
        var cipherText, bkdbKey, deviceLockKey := SpecifyDummyKeys(code);
        return Some(KeyData([], bkdbKey, deviceLockKey, cipherText));
      }
      return derive(code, plugin);
    }

    /** initializeKeyData: the buffer is allocated once, for the sizes of the first keys. */
    method CacheKeys(k: KeyData)
      requires KeysCached() && Derived(derive, k) && |k.bkdbKey| == 64 && |k.deviceLockKey| == 32
      modifies `keyData, `deviceOffset, `bkdbLength, `deviceLength, `keys, keyData
      ensures KeysCached() && keys == Some(k)
      ensures keyData == old(keyData) || fresh(keyData)
    {
      hide Derived;
      if keyData == null {
        keyData := new Byte[|k.bkdbKey| + |k.deviceLockKey|];
        deviceOffset := |k.bkdbKey|;
      }
      CopyInto(keyData, 0, k.bkdbKey);
      CopyInto(keyData, deviceOffset, k.deviceLockKey);
      bkdbLength, deviceLength := |k.bkdbKey|, |k.deviceLockKey|;
      keys := Some(k);
    }

    /** compareTestCipherText; `data` is the record that was read. */
    method Compare(k: KeyData, writeIfNotExists: bool, used: ByteArray, pathOk: bool, uuid: string, fault: Fault)
      returns (ok: bool, data: ByteArray)
      modifies folder, `record
      ensures data != [] || !writeIfNotExists ==>
                record == old(record) && (ok <==> data != [] && CipherOf(data) == k.cipherText)
      ensures data == [] && ok ==> record == Record(used, k.cipherText) && Intact()
      ensures !ok ==> record == old(record)
      ensures data != [] ==> MayRead(old(folder.root), data)
      ensures ok && data == [] ==> MayRead(old(folder.root), [])
      ensures old(Intact()) && pathOk ==> data == old(record)
      ensures old(Intact()) && (data != [] || !writeIfNotExists || !pathOk) ==> folder.root == old(folder.root)
      ensures old(Intact()) && data == [] && writeIfNotExists && pathOk ==>
                && StoreLeaves(old(folder.root), folder.root, Record(used, k.cipherText), uuid, fault)
                && (ok <==> StoreStatus(old(folder.root), uuid, fault) == Success)
                && (!ok ==> (Intact() <==> Survives(old(folder.root), uuid, fault, record, Record(used, k.cipherText))))
      ensures !pathOk ==> !ok && data == []
      ensures old(Intact()) && old(record) == [] && writeIfNotExists && pathOk && fault == NoFault ==> ok
    {
      hide Holds, Survives, MayRead, StoreStatus, StoreLeaves;
      var readable;
      readable, data := ReadRecord(pathOk);
      if !readable { return false, data; }
      if data == [] {
        if !writeIfNotExists { return false, data; }
        HeldEmpty(folder.root);
        ok := WriteRecord(Record(used, k.cipherText), uuid, fault);
        return;
      }
      ok := CipherOf(data) == k.cipherText;
    }

    /** Compares the record with `k`, or replaces it, as the mode asks. */
    method Settle(k: KeyData, mode: Mode, pathOk: bool, uuid: string, fault: Fault) returns (ok: bool)
      requires NEWLINE !in k.used
      modifies folder, `record
      ensures !ok ==> record == old(record)
      ensures ok && mode != LockMode ==> pathOk && record != [] && CipherOf(record) == k.cipherText
      ensures mode == LockMode ==> ok && record == old(record) && folder.root == old(folder.root)
      ensures mode == ModifyLockMode && pathOk && fault == NoFault && uuid !in Dirs(old(folder.root)) ==> ok
      ensures mode == UnlockMode && old(Intact()) && old(record) == [] && pathOk && fault == NoFault ==> ok
      ensures ok && mode == ModifyLockMode ==> record == Record(k.used, k.cipherText) && Intact()
      ensures ok && mode == UnlockMode ==>
                MayRead(old(folder.root), record) || (record == Record(k.used, k.cipherText) && MayRead(old(folder.root), []))
      ensures old(Intact()) && ok ==> Intact()
      ensures old(Intact()) && !(pathOk && (mode == ModifyLockMode || (mode == UnlockMode && old(record) == []))) ==>
                folder.root == old(folder.root) && Intact()
      ensures old(Intact()) && pathOk && (mode == ModifyLockMode || (mode == UnlockMode && old(record) == [])) ==>
                && StoreLeaves(old(folder.root), folder.root, Record(k.used, k.cipherText), uuid, fault)
                && (ok <==> StoreStatus(old(folder.root), uuid, fault) == Success)
                && (ok ==> record == Record(k.used, k.cipherText))
                && (!ok ==> (Intact() <==> Survives(old(folder.root), uuid, fault, record, Record(k.used, k.cipherText))))
      ensures old(Intact()) && pathOk && mode == UnlockMode && old(record) != [] ==>
                record == old(record) && (ok <==> k.cipherText == CipherOf(record))
    {
      hide Holds, Survives, MayRead, StoreStatus, StoreLeaves, CipherOf, PluginOf;
      RecordRoundTrip(k.used, k.cipherText);
      match mode {
        case ModifyLockMode =>
          ok := pathOk;
          if ok {
            ok := WriteRecord(Record(k.used, k.cipherText), uuid, fault);
          }
        case UnlockMode =>
          var data;
          ok, data := Compare(k, true, k.used, pathOk, uuid, fault);
          if ok && data != [] {
            record := data;
          }
        case LockMode =>
          ok := true;
      }
    }

    /** The part of initialize that reads, derives, and compares or stores; None when it fails. */
    method Resolve(code: ByteArray, mode: Mode, pathOk: bool, uuid: string, fault: Fault)
      returns (k: Option<KeyData>, ghost read: ByteArray)
      requires Stable(derive)
      modifies folder, `record
      ensures k == None ==> record == old(record)
      ensures k.Some? ==> k == KeysFor(derive, PluginOf(read), code)
      ensures read == [] || MayRead(old(folder.root), read)
      ensures old(Intact()) && pathOk ==> read == old(record)
      ensures !pathOk ==> read == []
      ensures mode == LockMode ==> k == KeysFor(derive, PluginOf(read), code)
      ensures mode == ModifyLockMode && pathOk && fault == NoFault && uuid !in Dirs(old(folder.root)) ==>
                k == KeysFor(derive, PluginOf(read), code)
      ensures mode == UnlockMode && old(Intact()) && old(record) == [] && pathOk && fault == NoFault ==>
                k == KeysFor(derive, PluginOf(read), code)
      ensures k.Some? && mode != LockMode ==> record != [] && CipherOf(record) == k.value.cipherText
      ensures k.Some? && mode == ModifyLockMode ==> record == Record(k.value.used, k.value.cipherText) && Intact()
      ensures k.Some? && mode == UnlockMode ==>
                || MayRead(old(folder.root), record)
                || (record == Record(k.value.used, k.value.cipherText) && TakenForUnused(old(folder.root), resets))
      ensures mode == LockMode ==> record == old(record)
      ensures old(Intact()) && pathOk && mode == UnlockMode && old(record) != [] ==>
                record == old(record) && (k.Some? <==> Unlocks(derive, record, code))
      ensures old(Intact()) && StoredBy(derive, old(record), code, mode, pathOk).Some? ==>
                && StoreLeaves(old(folder.root), folder.root, StoredBy(derive, old(record), code, mode, pathOk).value,
                               uuid, fault)
                && (k.Some? <==> StoreStatus(old(folder.root), uuid, fault) == Success)
                && (k.Some? ==> Some(record) == StoredBy(derive, old(record), code, mode, pathOk))
      ensures old(Intact()) && StoredBy(derive, old(record), code, mode, pathOk) == None ==> folder.root == old(folder.root)
      ensures old(Intact()) ==>
                (Intact() <==> !Breaks(derive, old(folder.root), old(record), code, mode, pathOk, uuid, fault))
    {
      hide Placeholder, Stable, Holds, KeysFor, Derived, PluginOf, CipherOf, Record, Survives, MayRead, StoreStatus,
           TakenForUnused, Narrows, StoreLeaves;
      ghost var before := folder.root;
      var _, data := ReadRecord(pathOk); // an unreadable record counts as none
      read := data;
      k := MakeKeys(code, PluginOf(data));
      if k == None { return; } // the plugin of the record is gone
      DerivedFits(derive, PluginOf(data), code);
      ghost var between := folder.root;
      var ok := Settle(k.value, mode, pathOk, uuid, fault);
      if !ok { return None, read; }
      if mode == UnlockMode {
        if MayRead(between, record) { ReadAgain(before, between, resets, record); }
        if MayRead(between, []) { ReadAgain(before, between, resets, []); }
      }
    }

    /**
     `fault` is the operation that fails if a record is stored; `read` the record that was read. Whenever folder and
     memory agree before the call, they do so after it if and only if the call does not break the record.
     */
    method Initialize(code: ByteArray, mode: Mode, pathOk: bool, uuid: string, fault: Fault)
      returns (ok: bool, ghost read: ByteArray)
      requires Valid()
      modifies this, folder, keyData
      ensures Valid() && (keyData == old(keyData) || fresh(keyData))
      // a failure touches neither the keys nor the flags
      ensures !ok ==> locked == old(locked) && noLockCode == old(noLockCode) && keys == old(keys) && record == old(record)
      ensures ok ==> locked == (mode == LockMode)
      ensures ok ==> noLockCode == if mode == LockMode then old(noLockCode) else code == []
      // the keys are those of this code by the plugin that is recorded, and so is the record that was matched or written
      ensures ok ==> keys.Some? && keys == KeysFor(derive, PluginOf(read), code)
      ensures ok && Named(PluginOf(read)) ==> keys == derive(code, PluginOf(read))
      ensures read == [] || MayRead(old(folder.root), read)
      ensures old(Intact()) && pathOk ==> read == old(record)
      ensures !pathOk ==> read == []
      ensures ok && mode == ModifyLockMode ==> record == Record(keys.value.used, keys.value.cipherText) && Intact()
      ensures ok && mode == UnlockMode ==>
                || MayRead(old(folder.root), record)
                || (record == Record(keys.value.used, keys.value.cipherText) && TakenForUnused(old(folder.root), resets))
      ensures mode == LockMode ==> record == old(record)
      // locking fails only for want of a plugin; so does a change of the code in which no operation fails
      ensures mode == LockMode ||
              (mode == ModifyLockMode && pathOk && fault == NoFault && uuid !in Dirs(old(folder.root))) ==>
                (ok <==> Named(PluginOf(read)) ==> derive(code, PluginOf(read)).Some?)
      // first use succeeds unless an operation fails
      ensures mode == UnlockMode && old(Intact()) && old(record) == [] && pathOk && fault == NoFault ==> ok
      // exactly, when folder and memory agree: a named plugin decides alone
      ensures old(Intact()) && pathOk && mode == UnlockMode && Named(PluginOf(old(record))) ==>
                var k := derive(code, PluginOf(old(record)));
                (ok <==> k.Some? && k.value.cipherText == CipherOf(old(record))) && (ok ==> keys == k)
      ensures old(Intact()) && pathOk && mode == UnlockMode && old(record) != [] ==>
                var p := PluginOf(old(record));
                ok <==> || Fits(derive, p, code, CipherOf(old(record)))
                        || (p == [] && derive(code, []) == None && CheckText(code) == CipherOf(old(record)))
      ensures old(Intact()) && pathOk && mode == UnlockMode && old(record) != [] ==>
                record == old(record) && (ok <==> Unlocks(derive, record, code))
      ensures old(Intact()) && StoredBy(derive, old(record), code, mode, pathOk).Some? ==>
                && StoreLeaves(old(folder.root), folder.root, StoredBy(derive, old(record), code, mode, pathOk).value,
                               uuid, fault)
                && (ok <==> StoreStatus(old(folder.root), uuid, fault) == Success)
                && (ok ==> Some(record) == StoredBy(derive, old(record), code, mode, pathOk))
      ensures old(Intact()) && StoredBy(derive, old(record), code, mode, pathOk) == None ==> folder.root == old(folder.root)
      ensures old(Intact()) ==>
                (Intact() <==> !Breaks(derive, old(folder.root), old(record), code, mode, pathOk, uuid, fault))
    {
      hide Stable, Holds, KeysFor, Derived, KeysCached, PluginOf, CipherOf, Record, Unlocks, MayRead, TakenForUnused,
           StoredBy, StoreStatus, Breaks, StoreLeaves, Fits, CheckText, BookkeepingKey, DeviceLockKey, Placeholder;
      var k;
      k, read := Resolve(code, mode, pathOk, uuid, fault);
      ok := k.Some?;
      KeysAreDerived(derive, PluginOf(read), code);
      AnswersAreDerived(derive, old(record), code);
      PluginOfEmpty();
      if !ok { return; }
      DerivedFits(derive, PluginOf(read), code);
      CacheKeys(k.value);
      if mode == LockMode {
        locked := true;
      } else {
        locked, noLockCode := false, code == [];
      }
    }

    /** `first` and `second` are what the two reads gave. */
    method TestLockCode(code: ByteArray, pathOk: bool) returns (ok: bool, ghost first: ByteArray, ghost second: ByteArray)
      requires Valid()
      modifies folder, `record
      ensures Valid() && record == old(record)
      ensures old(Intact()) ==> Intact()
      ensures old(Intact()) && pathOk ==> (ok <==> Accepts(derive, record, code))
      ensures old(Intact()) && pathOk && Named(PluginOf(record)) ==>
                var k := derive(code, PluginOf(record));
                (ok <==> k.Some? && k.value.cipherText == CipherOf(record))
      ensures old(Intact()) && pathOk ==> (ok <==> record != [] && Fits(derive, PluginOf(record), code, CipherOf(record)))
      ensures ok ==> MayRead(old(folder.root), first) && MayRead(old(folder.root), second) && second != []
      ensures ok ==> var k := KeysToTest(derive, PluginOf(first), code);
                     k.Some? && k.value.cipherText == CipherOf(second)
    {
      hide Placeholder, Stable, Holds, Derived, KeysCached, MayRead, Narrows, KeysToTest, PluginOf, CipherOf, Fits;
      first, second := [], [];
      ghost var before := folder.root;
      var readable, data := ReadRecord(pathOk);
      if !readable { return false, first, second; }
      first := data;
      var k := MakeKeysToTest(code, PluginOf(data));
      AnswersAreDerived(derive, record, code);
      PluginOfEmpty();
      if k == None { return false, first, second; }
      ghost var between := folder.root;
      var again;
      ok, again := Compare(k.value, false, PluginOf(data), pathOk, "", NoFault);
      second := again;
      if ok { ReadAgain(before, between, resets, again); }
    }

    /**
     Setting a code and checking codes, whatever the folder was like before: `other` is then accepted exactly when it
     gives the same ciphertext with the plugin that was recorded. So is the code itself, which always does, unless
     the old record named the placeholder and the new one names no plugin.
     */
    method SetThenTest(code: ByteArray, uuid: string, fault: Fault, other: ByteArray)
      returns (set_: bool, accepted: bool, same: bool, ghost read: ByteArray)
      requires Valid()
      modifies this, folder, keyData
      ensures Valid()
      ensures fault == NoFault && uuid !in Dirs(old(folder.root)) ==>
                (set_ <==> Named(PluginOf(read)) ==> derive(code, PluginOf(read)).Some?)
      ensures read == [] || MayRead(old(folder.root), read)
      ensures set_ ==> keys.Some? && Intact()
      ensures set_ ==> (accepted <==> keys.value.used != [] ||
                                      (derive(code, []).Some? && derive(code, []).value.cipherText == keys.value.cipherText))
      ensures set_ ==> (same <==> Fits(derive, keys.value.used, other, keys.value.cipherText))
    {
      hide Placeholder, Stable, Holds, KeysCached, Derived, KeysFor, KeysToTest, Accepts, Record, StoreStatus, StoreLeaves,
           Breaks, StoredBy, MayRead, TakenForUnused, PluginOf, CipherOf, Fits;
      accepted, same := false, false;
      set_, read := Initialize(code, ModifyLockMode, true, uuid, fault);
      if set_ {
        DerivedFits(derive, PluginOf(read), code);
        OwnCode(derive, PluginOf(read), code);
        RecordTells(derive, keys.value.used, keys.value.cipherText, code);
        RecordTells(derive, keys.value.used, keys.value.cipherText, other);
        var ownOk, _, _ := TestLockCode(code, true);
        var otherOk, _, _ := TestLockCode(other, true);
        accepted, same := ownOk, otherOk;
      }
    }
  }

  /** The code that gave keys `k` gives their ciphertext again, if `k` names the plugin used. */
  lemma OwnCode(derive: Derivation, plugin: ByteArray, code: ByteArray)
    requires Stable(derive) && KeysFor(derive, plugin, code).Some?
    ensures var k := KeysFor(derive, plugin, code).value;
            Fits(derive, k.used, code, k.cipherText) <==>
            (k.used != [] || (derive(code, []).Some? && derive(code, []).value.cipherText == k.cipherText))
  {
    hide CheckText, BookkeepingKey, DeviceLockKey;
  }

  // ---- failed changes, crashes, and whole runs ------------------------------------------------------

  /**
   What a change of the lock code that fails means: the lock stays open with the old keys. Whether the new code comes to
   be accepted depends on the operation that failed. Until a copy is committed it is not, but for what the old record
   accepts anyway; from then on a reader may get the new record.
   */
  method FailedChange(lock: MasterLock, code: ByteArray, uuid: string, fault: Fault)
    returns (changed: bool, accepted: bool, ghost after: Root)
    requires lock.Valid() && !lock.locked && lock.Intact()
    modifies lock, lock.folder, lock.keyData
    ensures lock.Valid() && !lock.locked
    ensures !changed ==> lock.keys == old(lock.keys) && lock.record == old(lock.record)
    ensures changed <==> StoreStatus(old(lock.folder.root), uuid, fault) == Success &&
                         StoredBy(lock.derive, old(lock.record), code, ModifyLockMode, true).Some?
    ensures !changed && accepted && !CopyCommitted(old(lock.folder.root), uuid, fault) ==>
              Accepts(lock.derive, old(lock.record), code)
    // `after` is what the failed change left on disk; if that still holds the old record, this one decides
    ensures !changed && Holds(after, old(lock.record)) ==> (accepted <==> Accepts(lock.derive, old(lock.record), code))
    ensures var new_ := StoredBy(lock.derive, old(lock.record), code, ModifyLockMode, true);
            !changed && new_.Some? && CopyCommitted(old(lock.folder.root), uuid, fault) ==> MayRead(after, new_.value)
  {
    hide Stable, Holds, Accepts, Record, StoreStatus, StoreLeaves, Breaks, MayRead, TakenForUnused, CopyCommitted;
    ghost var before, record := lock.folder.root, lock.record;
    ghost var stored := StoredBy(lock.derive, lock.record, code, ModifyLockMode, true);
    var done, _ := lock.Initialize(code, ModifyLockMode, true, uuid, fault);
    changed, accepted, after := done, false, lock.folder.root;
    if !changed {
      if stored.Some? && CopyCommitted(before, uuid, fault) {
        CommittedMayBeRead(before, after, uuid, fault, stored.value);
      }
      var ok, first, second := lock.TestLockCode(code, true);
      accepted := ok;
      if ok && !CopyCommitted(before, uuid, fault) {
        if stored.Some? {
          FailedStoreReads(before, after, uuid, fault, stored.value, first);
          FailedStoreReads(before, after, uuid, fault, stored.value, second);
        }
        HoldsAlone(before, record, first);
        HoldsAlone(before, record, second);
        assert Accepts(lock.derive, record, code) by { AcceptsMeans(lock.derive, record, code); }
      }
    }
  }

  lemma AcceptsMeans(derive: Derivation, record: ByteArray, code: ByteArray)
    ensures Accepts(derive, record, code) <==>
            record != [] && KeysToTest(derive, PluginOf(record), code).Some? &&
            KeysToTest(derive, PluginOf(record), code).value.cipherText == CipherOf(record)
  {
  }

  datatype Operation =
    | Init(code: ByteArray, mode: Mode, pathOk: bool, uuid: string, fault: Fault)
    | Test(code: ByteArray, pathOk: bool)

  ghost predicate OperationBreaks(derive: Derivation, root: Root, record: ByteArray, op: Operation) {
    op.Init? && Breaks(derive, root, record, op.code, op.mode, op.pathOk, op.uuid, op.fault)
  }

  /** The states of a run, before each operation and at the end. */
  ghost predicate Trace(derive: Derivation, ops: seq<Operation>, roots: seq<Root>, records: seq<ByteArray>) {
    && |roots| == |records| == |ops| + 1
    && forall i :: 0 <= i < |ops| && Holds(roots[i], records[i]) ==>
         (Holds(roots[i + 1], records[i + 1]) <==> !OperationBreaks(derive, roots[i], records[i], ops[i]))
  }

  /**
   Over any sequence of initialisations and checks, from any state of the folder: while the lock is open, the keys in
   memory are those of the record; and at every step at which the folder holds the record, it goes on doing so if and
   only if that step does not break it.
   */
  method Run(lock: MasterLock, ops: seq<Operation>) returns (ghost roots: seq<Root>, ghost records: seq<ByteArray>)
    requires lock.Valid()
    modifies lock, lock.folder, lock.keyData
    ensures lock.Valid() && Trace(lock.derive, ops, roots, records)
    ensures roots[0] == old(lock.folder.root) && records[0] == old(lock.record)
    ensures roots[|ops|] == lock.folder.root && records[|ops|] == lock.record
    ensures !lock.locked ==>
              && lock.keys.Some? && Derived(lock.derive, lock.keys.value)
              && lock.record != [] && CipherOf(lock.record) == lock.keys.value.cipherText
  {
    hide Stable, Holds, Derived, CipherOf, Breaks, StoreLeaves, StoreStatus, StoredBy, MayRead, TakenForUnused, Accepts;
    roots, records := [lock.folder.root], [lock.record];
    for i := 0 to |ops|
      invariant lock.Valid() && (lock.keyData == old(lock.keyData) || fresh(lock.keyData))
      invariant Trace(lock.derive, ops[..i], roots, records)
      invariant roots[0] == old(lock.folder.root) && records[0] == old(lock.record)
      invariant roots[i] == lock.folder.root && records[i] == lock.record
    {
      match ops[i] {
        case Init(code, mode, pathOk, uuid, fault) => var _, _ := lock.Initialize(code, mode, pathOk, uuid, fault);
        case Test(code, pathOk) => var _, _, _ := lock.TestLockCode(code, pathOk);
      }
      assert ops[..i + 1][..i] == ops[..i] && ops[..i + 1][i] == ops[i];
      roots, records := roots + [lock.folder.root], records + [lock.record];
    }
    assert ops[..|ops|] == ops;
  }

  /** So the record is held throughout a run in which no operation breaks it. */
  lemma {:induction false} HeldThroughout(derive: Derivation, ops: seq<Operation>, roots: seq<Root>,
                                          records: seq<ByteArray>, i: nat)
    requires Trace(derive, ops, roots, records) && Holds(roots[0], records[0]) && i <= |ops|
    requires forall j :: 0 <= j < i ==> !OperationBreaks(derive, roots[j], records[j], ops[j])
    ensures Holds(roots[i], records[i])
    decreases i
  {
    hide Holds, OperationBreaks;
    if i > 0 {
      HeldThroughout(derive, ops, roots, records, i - 1);
    }
  }

  /**
   A crash at any step of a store, and then the daemon starts and is given a code. It opens with the old record or the
   new one, or takes the folder for unused and writes a record for whatever code it is given: only if a directory
   looks empty, or is unreadable and the daemon resets such folders.
   */
  method StoreCrashUnlock(folder: Folder, derive: Derivation, resets: bool, bytes: ByteArray, uuid: string, fault: Fault,
                          previous: ByteArray, ghost name: string, k: nat, code: ByteArray, newUuid: string)
    returns (crashed: bool, found: Folder, ok: bool, lock: MasterLock)
    requires Stable(derive) && previous != [] && bytes != [] && folder.root == Present(map[name := Copies(3, previous)])
    modifies folder
    ensures crashed <==> |old(folder.history)| + k < |folder.history|
    // a state that holds one value, the old one or the new one, is opened by exactly the codes that unlock it
    ensures crashed && Holds(folder.history[|old(folder.history)| + k], previous) ==>
              (ok <==> Unlocks(derive, previous, code))
    ensures crashed && Holds(folder.history[|old(folder.history)| + k], bytes) ==>
              (ok <==> Unlocks(derive, bytes, code))
    ensures crashed && ok ==>
              && lock.keys.Some? && CipherOf(lock.record) == lock.keys.value.cipherText
              && (|| lock.record in {previous, bytes}
                  || (&& lock.record == Record(lock.keys.value.used, lock.keys.value.cipherText)
                      && TakenForUnused(folder.history[|old(folder.history)| + k], resets)))
  {
    hide Holds, Record, StoreStatus, StoreLeaves, Breaks, StoredBy, MayRead, TakenForUnused, CipherOf, KeysFor, OnlyReads,
         Unlocks, Fits, CrashSafe, Stable, Narrows;
    var writer := new DataProtector(folder);
    var before := |folder.history|;
    var _ := writer.PutData(bytes, uuid, fault, {previous});
    crashed := before + k < |folder.history|;
    found := new Folder(if crashed then folder.history[before + k] else folder.root);
    ghost var root := found.root;
    if Holds(root, previous) && Holds(root, bytes) { HoldsOne(root, previous, bytes); }
    lock := new MasterLock(derive, found, resets, if Holds(root, previous) then previous else bytes);
    var opens, _ := lock.Initialize(code, UnlockMode, true, newUuid, NoFault);
    ok := opens;
    if crashed && ok && MayRead(root, lock.record) {
      assert CrashSafe(root, {previous} + {bytes, []});
      CrashSafeReads(root, {previous} + {bytes, []}, lock.record);
    }
  }

  lemma CrashSafeReads(r: Root, allowed: set<ByteArray>, v: ByteArray)
    requires CrashSafe(r, allowed) && MayRead(r, v) && v != []
    ensures v in allowed
  {
  }

  lemma Evolves(before: Root, after: Root, chosen: string, status: Status, data: ByteArray)
    requires NoDirectories(before) ==> status == Success && data == [] && after == before
    requires !NoDirectories(before) ==> chosen in before.dirs && Outcome(before.dirs[chosen], status, data)
    requires Pruned(before, after, chosen)
    ensures status == Success ==> MayRead(before, data)
    ensures status == Irretrievable ==> Lost(before)
    ensures status in {Success, Irretrievable}
    ensures forall v :: MayRead(after, v) ==> MayRead(before, v)
  {
    forall v | MayRead(after, v) ensures MayRead(before, v) {
      PrunedReads(before, after, chosen, v);
    }
  }
}
