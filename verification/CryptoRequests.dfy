/**
 Crypto requests and what is parked for them while a Secrets sub-request runs
 (daemon/CryptoImpl/cryptorequestprocessor.cpp).
 */
module CryptoRequests {
  import opened Basics

  type Id = nat
  type Bytes = string

  datatype Component = MetaData | PublicKeyData | PrivateKeyData

  datatype Identifier = Identifier(name: string, collection: string, storagePlugin: string)

  datatype Key = Key(identifier: Identifier, imported: bool, details: string, constraints: set<Component>,
                     publicKey: Bytes, parameters: string, privateKey: Bytes, secretKey: Bytes)

  const NO_IDENTIFIER := Identifier("", "", "")

  /** What a client may get back of a key that was stored: all but its private and secret parts. */
  function WithoutPrivateData(k: Key): (n: Key)
    ensures n.privateKey == "" && n.secretKey == ""
    ensures n.(privateKey := k.privateKey, secretKey := k.secretKey) == k
  {
    k.(privateKey := "", secretKey := "")
  }

  /** nullifyKeyFields: a part is given only if it is asked for and the key allows it, and all of them are if so. */
  function Nullified(k: Key, keep: set<Component>): (n: Key)
    ensures n.privateKey != "" || n.secretKey != "" ==> PrivateKeyData in keep && PrivateKeyData in k.constraints
    ensures n.publicKey != "" || n.parameters != "" ==> PublicKeyData in keep && PublicKeyData in k.constraints
    ensures n.identifier != NO_IDENTIFIER || n.imported || n.details != "" || n.constraints != {} ==>
              MetaData in keep && MetaData in k.constraints
    ensures {MetaData, PublicKeyData, PrivateKeyData} <= keep * k.constraints ==> n == k
  {
    var a := if MetaData in keep && MetaData in k.constraints then k
             else k.(identifier := NO_IDENTIFIER, imported := false, details := "", constraints := {});
    var b := if PublicKeyData in keep && PublicKeyData in k.constraints then a else a.(parameters := "", publicKey := "");
    if PrivateKeyData in keep && PrivateKeyData in k.constraints then b else WithoutPrivateData(b)
  }

  datatype Kdf = Kdf(valid: bool, input: Bytes, details: string)
  datatype Ui = Ui(valid: bool, details: string)
  datatype Operation = OperationSign | OperationVerify | OperationEncrypt | OperationDecrypt | OperationDigest

  /** A request with its parameters. `Direct` stands for the ones that only run one job in a plugin. */
  datatype Request =
    | GenerateStoredKey(key: Key, kpg: string, kdf: Kdf, ui: Ui, custom: string, provider: string)
    | ImportKey(data: Bytes, ui: Ui, custom: string, provider: string)
    | ImportStoredKey(data: Bytes, key: Key, ui: Ui, custom: string, provider: string)
    | StoredKey(identifier: Identifier, components: set<Component>, custom: string)
    | DeleteStoredKey(identifier: Identifier)
    | StoredKeyIdentifiers(storagePlugin: string, collection: string, custom: string)
    | Sign(data: Bytes, key: Key, signaturePadding: int, digest: int, custom: string, provider: string)
    | Verify(signature: Bytes, data: Bytes, key: Key, signaturePadding: int, digest: int, custom: string, provider: string)
    | Encrypt(data: Bytes, iv: Bytes, key: Key, blockMode: int, encryptionPadding: int, authentication: Bytes,
              custom: string, provider: string)
    | Decrypt(data: Bytes, iv: Bytes, key: Key, blockMode: int, encryptionPadding: int, authentication: Bytes, tag: Bytes,
              custom: string, provider: string)
    | InitializeCipherSession(iv: Bytes, key: Key, operation: Operation, blockMode: int, encryptionPadding: int,
                              signaturePadding: int, digest: int, custom: string, provider: string)
    | QueryLockStatus(targetType: int, target: string)
    | ModifyLockCode(targetType: int, target: string, ui: Ui)
    | ProvideLockCode(targetType: int, target: string, ui: Ui)
    | ForgetLockCode(targetType: int, target: string, ui: Ui)
    | Direct(provider: string)

  datatype RequestType =
    | GenerateStoredKeyRequest | ImportKeyRequest | ImportStoredKeyRequest | StoredKeyRequest | DeleteStoredKeyRequest
    | StoredKeyIdentifiersRequest | SignRequest | VerifyRequest | EncryptRequest | DecryptRequest
    | InitializeCipherSessionRequest | QueryLockStatusRequest | ModifyLockCodeRequest | ProvideLockCodeRequest
    | ForgetLockCodeRequest | OtherRequest

  function TypeOf(r: Request): RequestType {
    match r
    case GenerateStoredKey(_, _, _, _, _, _) => GenerateStoredKeyRequest
    case ImportKey(_, _, _, _) => ImportKeyRequest
    case ImportStoredKey(_, _, _, _, _) => ImportStoredKeyRequest
    case StoredKey(_, _, _) => StoredKeyRequest
    case DeleteStoredKey(_) => DeleteStoredKeyRequest
    case StoredKeyIdentifiers(_, _, _) => StoredKeyIdentifiersRequest
    case Sign(_, _, _, _, _, _) => SignRequest
    case Verify(_, _, _, _, _, _, _) => VerifyRequest
    case Encrypt(_, _, _, _, _, _, _, _) => EncryptRequest
    case Decrypt(_, _, _, _, _, _, _, _, _) => DecryptRequest
    case InitializeCipherSession(_, _, _, _, _, _, _, _, _) => InitializeCipherSessionRequest
    case QueryLockStatus(_, _) => QueryLockStatusRequest
    case ModifyLockCode(_, _, _) => ModifyLockCodeRequest
    case ProvideLockCode(_, _, _) => ProvideLockCodeRequest
    case ForgetLockCode(_, _, _) => ForgetLockCodeRequest
    case Direct(_) => OtherRequest
  }

  /** Requests that work with a key, either given whole or by reference. */
  predicate UsesKey(r: Request) {
    r.Sign? || r.Verify? || r.Encrypt? || r.Decrypt? || r.InitializeCipherSession?
  }

  /** Requests that the Secrets side does all the work for. */
  predicate OnlyAnswered(r: Request) {
    r.DeleteStoredKey? || r.StoredKeyIdentifiers? || r.QueryLockStatus? || r.ModifyLockCode? || r.ProvideLockCode? ||
    r.ForgetLockCode?
  }

  /** The same request with another key. */
  function WithKey(r: Request, k: Key): (s: Request)
    requires UsesKey(r)
    ensures UsesKey(s) && TypeOf(s) == TypeOf(r) && s.key == k
    ensures k == r.key ==> s == r
  {
    match r
    case Sign(data, _, padding, digest, custom, provider) => Sign(data, k, padding, digest, custom, provider)
    case Verify(signature, data, _, padding, digest, custom, provider) =>
      Verify(signature, data, k, padding, digest, custom, provider)
    case Encrypt(data, iv, _, mode, padding, authentication, custom, provider) =>
      Encrypt(data, iv, k, mode, padding, authentication, custom, provider)
    case Decrypt(data, iv, _, mode, padding, authentication, tag, custom, provider) =>
      Decrypt(data, iv, k, mode, padding, authentication, tag, custom, provider)
    case InitializeCipherSession(iv, _, operation, mode, padding, sigPadding, digest, custom, provider) =>
      InitializeCipherSession(iv, k, operation, mode, padding, sigPadding, digest, custom, provider)
  }

  predicate IsReference(r: Request)
    requires UsesKey(r)
  {
    && r.key.privateKey == "" && r.key.secretKey == ""
    && (r.Verify? || r.Encrypt? ==> r.key.publicKey == "") // the public key will do for these
  }

  // ---- continuations --------------------------------------------------------------------------------

  datatype Purpose = DeriveKey | ImportKeyData | ModifyLock | UnlockPlugin | LockPlugin

  /** What the processor asks of the Secrets side, with the arguments it passes. */
  datatype SubRequest =
    | StoreKeyPreCheck(identifier: Identifier)
    | UseKeyPreCheck(identifier: Identifier, operation: Operation, plugin: string)
    | UserInput(purpose: Purpose, identifier: Identifier, ui: Ui)
    | StoringKey(identifier: Identifier, key: Key, collectionKey: Bytes)
    | FetchingKey(identifier: Identifier)
    | DeletingKey(identifier: Identifier)
    | ListingKeys(collection: string, plugin: string, custom: string)
    | LockStatus(target: string)
    | LockCode(purpose: Purpose, target: string, ui: Ui)

  const EXTENSION_PLUGIN := 1 // the lock code target that names a plugin

  /** The operation that the Secrets side is told of is the one asked for. */
  function OperationOf(r: Request): (operation: Operation)
    requires UsesKey(r)
    ensures !r.InitializeCipherSession? ==>
              && (operation == OperationSign <==> r.Sign?) && (operation == OperationVerify <==> r.Verify?)
              && (operation == OperationEncrypt <==> r.Encrypt?) && (operation == OperationDecrypt <==> r.Decrypt?)
  {
    match r
    case Sign(_, _, _, _, _, _) => OperationSign
    case Verify(_, _, _, _, _, _, _) => OperationVerify
    case Encrypt(_, _, _, _, _, _, _, _) => OperationEncrypt
    case Decrypt(_, _, _, _, _, _, _, _, _) => OperationDecrypt
    case InitializeCipherSession(_, _, operation, _, _, _, _, _, _) => operation
  }

  /** QVariant, by the type it holds. */
  datatype Variant =
    | VBytes(bytes: Bytes) | VKey(key: Key) | VKpg(kpg: string) | VKdf(kdf: Kdf) | VUi(ui: Ui) | VMap(custom: string)
    | VText(text: string) | VSignaturePadding(signaturePadding: int) | VDigest(digest: int) | VBlockMode(blockMode: int)
    | VEncryptionPadding(encryptionPadding: int) | VOperation(operation: Operation) | VPid(pid: int)
    | VIdentifier(identifier: Identifier) | VComponents(components: set<Component>) | VTargetType(targetType: int)

  datatype PendingRequest = PendingRequest(pid: int, id: Id, requestType: RequestType, parameters: seq<Variant>)

  /**
   Request `r` of process `pid` waits for sub-request `s`: it is one that `r` calls for, with arguments taken from `r`,
   and `p` are the parameters its completion will decode. `ck` is the collection key, once the pre-check has given it.
   */
  ghost predicate Parked(r: Request, pid: int, ck: Option<Bytes>, s: SubRequest, p: seq<Variant>) {
    match s
    case StoreKeyPreCheck(identifier) => AwaitsStoreCheck(r, p) && identifier == r.key.identifier && ck == None
    case UserInput(purpose, identifier, ui) => AwaitsInput(r, ck, purpose, identifier, ui, p)
    case StoringKey(identifier, key, collectionKey) => AwaitsStoring(r, identifier, key, p) && ck == Some(collectionKey)
    case FetchingKey(identifier) => AwaitsKey(r, pid, identifier, p) && ck == None
    case UseKeyPreCheck(identifier, operation, plugin) =>
      && AwaitsUseCheck(r, p) && IsReference(r) && ck == None
      && identifier == r.key.identifier && identifier.storagePlugin == r.provider
      && operation == OperationOf(r) && plugin == r.provider
    case DeletingKey(identifier) =>
      r.DeleteStoredKey? && identifier == r.identifier && p == [VIdentifier(identifier)] && ck == None
    case ListingKeys(collection, plugin, custom) =>
      r == StoredKeyIdentifiers(plugin, collection, custom) && p == [] && ck == None
    case LockStatus(target) =>
      && r.QueryLockStatus? && target == (if r.targetType == EXTENSION_PLUGIN then r.target else "") && ck == None
      && p == [VPid(pid), VTargetType(r.targetType), VText(r.target)]
    case LockCode(purpose, target, ui) =>
      && (match purpose
          case ModifyLock => r.ModifyLockCode?
          case UnlockPlugin => r.ProvideLockCode?
          case LockPlugin => r.ForgetLockCode?
          case _ => false)
      && target == r.target && ui == r.ui && ck == None
      && p == [VPid(pid), VTargetType(r.targetType), VText(r.target), VUi(r.ui)]
  }

  ghost predicate AwaitsStoreCheck(r: Request, p: seq<Variant>) {
    match r
    case GenerateStoredKey(key, kpg, kdf, ui, custom, provider) =>
      p == [VKey(key), VKpg(kpg), VKdf(kdf), VUi(ui), VMap(custom), VText(provider)]
    case ImportStoredKey(data, key, ui, custom, provider) =>
      p == [VBytes(data), VKey(key), VUi(ui), VMap(custom), VText(provider)]
    case _ => false
  }

  ghost predicate AwaitsInput(r: Request, ck: Option<Bytes>, purpose: Purpose, identifier: Identifier, ui: Ui,
                              p: seq<Variant>)
  {
    match r
    case GenerateStoredKey(key, kpg, kdf, _, custom, provider) =>
      && purpose == DeriveKey && identifier == key.identifier && ui == r.ui && ck.Some?
      && p == [VKey(key), VKpg(kpg), VKdf(kdf), VMap(custom), VText(provider), VBytes(ck.value)]
    case ImportKey(data, _, custom, provider) =>
      && purpose == ImportKeyData && identifier == NO_IDENTIFIER && ui == r.ui && ck == None
      && p == [VBytes(data), VUi(r.ui), VMap(custom), VText(provider)]
    case ImportStoredKey(_, key, _, _, _) =>
      && purpose == ImportKeyData && identifier == key.identifier && ui == r.ui && AwaitsPassphrase(r, ck, p)
    case _ => false
  }

  ghost predicate AwaitsStoring(r: Request, identifier: Identifier, stored: Key, p: seq<Variant>) {
    && identifier == stored.identifier
    && match r
       case GenerateStoredKey(key, _, _, _, _, provider) => key.identifier.storagePlugin != provider && p == [VKey(stored)]
       case ImportStoredKey(_, key, _, _, provider) =>
         key.identifier.storagePlugin != provider && stored.imported && p == [VKey(key)]
       case _ => false
  }

  ghost predicate AwaitsKey(r: Request, pid: int, identifier: Identifier, p: seq<Variant>) {
    && (if r.StoredKey? then identifier == r.identifier
        else UsesKey(r) && IsReference(r) && identifier == r.key.identifier && identifier.storagePlugin != r.provider)
    && match r
       case StoredKey(_, components, _) => p == [VIdentifier(identifier), VComponents(components)]
       case Sign(data, _, padding, digest, custom, provider) =>
         p == [VBytes(data), VSignaturePadding(padding), VDigest(digest), VMap(custom), VText(provider)]
       case Verify(signature, data, _, padding, digest, custom, provider) =>
         p == [VBytes(signature), VBytes(data), VSignaturePadding(padding), VDigest(digest), VMap(custom), VText(provider)]
       case Encrypt(data, iv, _, mode, padding, authentication, custom, provider) =>
         p == [VBytes(data), VBytes(iv), VBlockMode(mode), VEncryptionPadding(padding), VBytes(authentication),
               VMap(custom), VText(provider)]
       case Decrypt(data, iv, _, mode, padding, authentication, tag, custom, provider) =>
         p == [VBytes(data), VBytes(iv), VBlockMode(mode), VEncryptionPadding(padding), VBytes(authentication), VBytes(tag),
               VMap(custom), VText(provider)]
       case InitializeCipherSession(iv, _, operation, mode, padding, sigPadding, digest, custom, provider) =>
         p == [VPid(pid), VBytes(iv), VOperation(operation), VBlockMode(mode), VEncryptionPadding(padding),
               VSignaturePadding(sigPadding), VDigest(digest), VMap(custom), VText(provider)]
       case _ => false
  }

  ghost predicate AwaitsUseCheck(r: Request, p: seq<Variant>)
    ensures AwaitsUseCheck(r, p) ==> UsesKey(r)
  {
    match r
    case Sign(data, key, padding, digest, custom, provider) =>
      p == [VBytes(data), VKey(key), VSignaturePadding(padding), VDigest(digest), VMap(custom), VText(provider)]
    case Verify(signature, data, key, padding, digest, custom, provider) =>
      p == [VBytes(signature), VBytes(data), VKey(key), VSignaturePadding(padding), VDigest(digest), VMap(custom),
            VText(provider)]
    case Encrypt(data, iv, key, mode, padding, authentication, custom, provider) =>
      p == [VBytes(data), VBytes(iv), VKey(key), VBlockMode(mode), VEncryptionPadding(padding), VBytes(authentication),
            VMap(custom), VText(provider)]
    case Decrypt(data, iv, key, mode, padding, authentication, tag, custom, provider) =>
      p == [VBytes(data), VBytes(iv), VKey(key), VBlockMode(mode), VEncryptionPadding(padding), VBytes(authentication),
            VBytes(tag), VMap(custom), VText(provider)]
    case InitializeCipherSession(iv, key, operation, mode, padding, sigPadding, digest, custom, provider) =>
      p == [VBytes(iv), VKey(key), VOperation(operation), VBlockMode(mode), VEncryptionPadding(padding),
            VSignaturePadding(sigPadding), VDigest(digest), VMap(custom), VText(provider)]
    case _ => false
  }

  /** The import of a stored key, parked until a passphrase is known. */
  ghost predicate AwaitsPassphrase(r: Request, ck: Option<Bytes>, p: seq<Variant>) {
    && r.ImportStoredKey? && ck.Some?
    && p == [VBytes(r.data), VKey(r.key), VUi(r.ui), VMap(r.custom), VText(r.provider), VBytes(ck.value)]
  }

  /** The one way to be parked with nothing asked for. */
  ghost predicate AwaitsNobody(r: Request, ck: Option<Bytes>, p: seq<Variant>) {
    AwaitsPassphrase(r, ck, p) && r.ui.valid && r.key.identifier.storagePlugin != r.provider
  }

  // ---- jobs in plugin threads -----------------------------------------------------------------------

  datatype JobKind = Generate | GenerateAndStore | Import | ImportForStorage | ImportAndStore | Fetch | Use

  /** What a plugin thread works on, as captured when it was started. */
  datatype Job = Job(kind: JobKind, pid: int, request: Request, collectionKey: Bytes, passphrase: Bytes)

  /**
   A job works on the request as it was made; only a key reference or missing derivation input is filled in. One that
   makes a key to be stored has the collection key that the pre-check gave.
   */
  ghost predicate Works(r: Request, pid: int, ck: Option<Bytes>, j: Job) {
    && j.pid == pid
    && (j.kind in {Import, Fetch, Use} ==> ck == None)
    && (j.kind !in {Import, Fetch, Use} ==> ck == Some(j.collectionKey))
    && match j.kind
       case Generate => GeneratesFor(r, j.request) && StoredElsewhere(r)
       case GenerateAndStore => GeneratesFor(r, j.request) && !StoredElsewhere(r)
       case Import => r.ImportKey? && j.request == r
       case ImportForStorage => r.ImportStoredKey? && j.request == r && StoredElsewhere(r)
       case ImportAndStore => r.ImportStoredKey? && j.request == r && !StoredElsewhere(r)
       case Fetch => r.StoredKey? && j.request == r
       case Use => UsesFor(r, j.request) || (r.Direct? && j.request == r)
  }

  /** The key is to be stored by another plugin than the one that makes it. */
  predicate StoredElsewhere(r: Request) {
    (r.GenerateStoredKey? || r.ImportStoredKey?) && r.key.identifier.storagePlugin != r.provider
  }

  ghost predicate GeneratesFor(r: Request, made: Request) {
    r.GenerateStoredKey? && made.GenerateStoredKey? &&
    made == r.(kdf := made.kdf, ui := made.ui) && made.kdf == r.kdf.(input := made.kdf.input)
  }

  ghost predicate UsesFor(r: Request, made: Request) {
    UsesKey(r) && UsesKey(made) && made == WithKey(r, made.key) &&
    (made.key == r.key || (IsReference(r) && r.key.identifier.storagePlugin != r.provider))
  }
}
