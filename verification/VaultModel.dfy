/** The managed MCP vault (apps/server/src/local-managed-mcp.ts): an encrypted map of
    connections with a plaintext index beside it, loaded, changed and written back by one
    queued call at a time. Encryption is a value that opens only with the key it was
    sealed under; the keyed hash of an authorization id is a parameter. */
module VaultModel {
  import opened Numerals
  import opened Wrappers

  type Key = string

  /** authorizationStorageKey: the keyed hash under which an authorization is stored. */
  type Mac = (Key, string) -> string

  datatype Status = NeedsAuth | Connecting | Connected | ReconnectRequired

  datatype OAuth = OAuth(
    native: bool,
    scopes: Option<seq<string>>,
    issuer: Option<string>,
    clientId: Option<string>,
    clientSecret: Option<string>)

  /** A revision: a fresh UUID, by number, or the constant of a configured client. */
  datatype Revision = Uuid(n: nat) | PreRegistered

  datatype Registration = Registration(client: string, revision: nat)

  datatype Credential = Credential(tokens: string, revision: nat, expiresAt: Option<int>)

  datatype Authorization = Authorization(
    revision: nat,
    expiresAt: int,
    codeVerifier: string,
    clientRevision: Option<Revision>)

  datatype Connection = Connection(
    id: string,
    workspaceId: string,
    name: string,
    serverUrl: string,
    enabled: bool,
    oauth: OAuth,
    status: Status,
    lastError: Option<string>,
    createdAt: int,
    updatedAt: int,
    registration: Option<Registration>,
    credential: Option<Credential>,
    authorizations: map<string, Authorization>,
    discovery: Option<string>)

  type Vault = map<string, Connection>

  /** The non-secret projection of a connection kept in the clear. */
  datatype IndexEntry = IndexEntry(
    id: string,
    workspaceId: string,
    name: string,
    serverUrl: string,
    enabled: bool,
    native: bool,
    scopes: Option<seq<string>>,
    issuer: Option<string>,
    clientId: Option<string>,
    status: Status,
    lastError: Option<string>,
    createdAt: int,
    updatedAt: int,
    hasCredential: bool)

  datatype Recovery = Recovery(at: int, quarantinedTo: string)

  /** The vault file: version 1 has no index. */
  datatype File = File(
    sealedUnder: Key,
    vault: Vault,
    index: Option<map<string, IndexEntry>>,
    lastRecovery: Option<Recovery>)

  const RECOVERED_ERROR := "Secure storage on this device changed, so saved sign-ins were cleared. Reconnect to restore this connection."

  /** A spread of `value ? { field: value } : {}`: the empty string is left out. */
  function IfTruthy(o: Option<string>): Option<string> {
    if o == Some("") then None else o
  }

  /** vaultIndexEntry */
  function IndexEntryOf(c: Connection): IndexEntry {
    IndexEntry(c.id, c.workspaceId, c.name, c.serverUrl, c.enabled, c.oauth.native, c.oauth.scopes,
               IfTruthy(c.oauth.issuer), IfTruthy(c.oauth.clientId), c.status, c.lastError,
               c.createdAt, c.updatedAt, c.credential.Some?)
  }

  function IndexOf(v: Vault): map<string, IndexEntry> {
    map k | k in v :: IndexEntryOf(v[k])
  }

  /** rebuiltConnection */
  function Rebuilt(e: IndexEntry): Connection {
    Connection(e.id, e.workspaceId, e.name, e.serverUrl, e.enabled,
               OAuth(e.native, e.scopes, IfTruthy(e.issuer), IfTruthy(e.clientId), None),
               ReconnectRequired, Some(RECOVERED_ERROR), e.createdAt, e.updatedAt, None, None, map[], None)
  }

  function RebuiltVault(index: Option<map<string, IndexEntry>>): Vault {
    if index.None? then map[] else map k | k in index.value :: Rebuilt(index.value[k])
  }

  /** What a call finds around it: the key if secure storage gives one, the clock, the name
      of a quarantine file, and whether the file system takes a recovery's write and the
      call's own. */
  datatype Env = Env(key: Option<Key>, now: int, backup: string, recoveryWrites: bool, writes: bool)

  datatype Error =
    | StorageUnavailable | WriteFailed | NotFound | Exists | CredentialChanged
    | AuthorizationMissing | AuthorizationConsumed | ClientChanged

  datatype Loaded = Loaded(vault: Vault, lastRecovery: Option<Recovery>)

  /** writeVault: the file it leaves. */
  function Written(key: Key, v: Vault, lastRecovery: Option<Recovery>): File {
    File(key, v, Some(IndexOf(v)), lastRecovery)
  }

  /** recoverVaultLocked: the unreadable file is moved away before the rebuilt one is
      written, so a failed write leaves no file. */
  function Recover(file: File, key: Key, env: Env): (Option<File>, Result<Loaded, Error>) {
    var v := RebuiltVault(file.index);
    var recovery := Some(Recovery(env.now, env.backup));
    if env.recoveryWrites then (Some(Written(key, v, recovery)), Ok(Loaded(v, recovery)))
    else (None, Err(WriteFailed))
  }

  /** loadVaultLocked */
  function Load(file: Option<File>, env: Env): (Option<File>, Result<Loaded, Error>) {
    if file.None? then (None, Ok(Loaded(map[], None)))
    else if env.key.None? then (file, Err(StorageUnavailable))
    else if file.value.sealedUnder == env.key.value then
      (file, Ok(Loaded(file.value.vault, file.value.lastRecovery)))
    else Recover(file.value, env.key.value, env)
  }

  function ConnectionKey(workspaceId: string, name: string): string {
    Print(10, |workspaceId|) + ":" + workspaceId + name
  }

  /** The handle of a begun authorization. */
  datatype Handle = Handle(id: string, revision: nat)

  datatype Source =
    | Refresh(expected: Option<nat>)
    | AuthorizationCode(handle: Option<Handle>, clientRevision: Option<Revision>)

  datatype Op =
    | Create(serverUrl: string, oauth: OAuth, id: string)
    | SaveCredential(source: Source, tokens: string, expires: Option<int>)
    | InvalidateCredential
    | BeginAuthorization(authorizationId: string, codeVerifier: string, expiresAt: int, clientRevision: Option<Revision>)
    | InvalidateAuthorization(authorizationId: string)
    | SaveRegistration(client: string)
    | InvalidateRegistration
    | SaveDiscovery(discovery: string)
    | InvalidateDiscovery
    | UpdateStatus(status: Status, lastError: Option<string>)
    | SetEnabled(enabled: bool)
    | Disconnect
    | Delete

  /** A call for one connection. */
  datatype Call = Call(workspaceId: string, name: string, op: Op)

  /** Some(vault) to write back, or None when there is nothing to write. */
  type Change = Result<Option<Vault>, Error>

  function Created(call: Call, now: int): Connection
    requires call.op.Create?
  {
    var oauth := call.op.oauth;
    Connection(call.op.id, call.workspaceId, call.name, call.op.serverUrl, true,
               oauth.(scopes := if oauth.scopes == Some([]) then None else oauth.scopes,
                      issuer := IfTruthy(oauth.issuer),
                      clientId := IfTruthy(oauth.clientId),
                      clientSecret := IfTruthy(oauth.clientSecret)),
               NeedsAuth, None, now, now, None, None, map[], None)
  }

  /** credentials.save: the checks, then the connection with its new credential. */
  function CredentialSaved(mac: Mac, c: Connection, op: Op, env: Env, uuid: nat): Result<Connection, Error>
    requires op.SaveCredential?
  {
    var credential := Credential(op.tokens, uuid, op.expires);
    var saved := c.(credential := Some(credential), status := Connected, lastError := None, updatedAt := env.now);
    match op.source
    case Refresh(expected) =>
      var current := if c.credential.Some? then Some(c.credential.value.revision) else None;
      if expected != current then Err(CredentialChanged) else Ok(saved)
    case AuthorizationCode(handle, clientRevision) =>
      if handle.None? then Err(AuthorizationMissing)
      else if env.key.None? then Err(StorageUnavailable)
      else
        var stored := mac(env.key.value, handle.value.id);
        if stored !in c.authorizations || c.authorizations[stored].revision != handle.value.revision then
          Err(AuthorizationConsumed)
        else if c.authorizations[stored].clientRevision != clientRevision then Err(ClientChanged)
        else Ok(saved.(authorizations := c.authorizations - {stored}))
  }

  /** The change of each call to its connection; `uuid` is the one it may draw. */
  function Edit(mac: Mac, c: Connection, op: Op, env: Env, uuid: nat): Result<Connection, Error> {
    var touched := c.(updatedAt := env.now);
    match op
    case SaveCredential(_, _, _) => CredentialSaved(mac, c, op, env, uuid)
    case InvalidateCredential => Ok(touched.(credential := None, status := ReconnectRequired))
    case BeginAuthorization(id, codeVerifier, expiresAt, clientRevision) =>
      if env.key.None? then Err(StorageUnavailable)
      else
        var begun := Authorization(uuid, expiresAt, codeVerifier, clientRevision);
        Ok(touched.(authorizations := c.authorizations[mac(env.key.value, id) := begun]))
    case InvalidateAuthorization(id) =>
      if env.key.None? then Err(StorageUnavailable)
      else Ok(touched.(authorizations := c.authorizations - {mac(env.key.value, id)}))
    case SaveRegistration(client) =>
      if c.registration.Some? then Ok(c) else Ok(touched.(registration := Some(Registration(client, uuid))))
    case InvalidateRegistration => Ok(touched.(registration := None))
    case SaveDiscovery(discovery) => Ok(touched.(discovery := Some(discovery)))
    case InvalidateDiscovery => Ok(touched.(discovery := None))
    case UpdateStatus(status, lastError) => Ok(touched.(status := status, lastError := lastError))
    case SetEnabled(enabled) => Ok(touched.(enabled := enabled))
    case Disconnect =>
      Ok(touched.(credential := None, authorizations := map[], enabled := false, status := NeedsAuth, lastError := None))
    case Create(_, _, _) => Err(Exists)
    case Delete => Ok(c)
  }

  /** The mutation of each call on the loaded vault. */
  function Mutate(mac: Mac, v: Vault, call: Call, env: Env, uuid: nat): Change {
    var k := ConnectionKey(call.workspaceId, call.name);
    if (call.op.BeginAuthorization? || call.op.InvalidateAuthorization?) && env.key.None? then Err(StorageUnavailable)
    else if call.op.Create? && k !in v then Ok(Some(v[k := Created(call, env.now)]))
    else if k !in v then
      if call.op.SetEnabled? || call.op.Disconnect? || call.op.Delete? then Ok(None) else Err(NotFound)
    else if call.op.Delete? then Ok(Some(v - {k}))
    else
      var edited := Edit(mac, v[k], call.op, env, uuid);
      if edited.Err? then Err(edited.error) else Ok(Some(v[k := edited.value]))
  }

  /** A credential save that was written. */
  datatype Saved = Saved(workspaceId: string, name: string, source: Source)

  /** The store over time: the file, the UUIDs drawn, and the saves that succeeded. */
  datatype Store = Store(file: Option<File>, drawn: nat, log: seq<Saved>)

  /** withVaultMutation: load, change, write. */
  function Next(mac: Mac, s: Store, call: Call, env: Env): Store {
    var (file, loaded) := Load(s.file, env);
    var q := s.(file := file, drawn := s.drawn + 1);
    if loaded.Err? then q
    else
      var change := Mutate(mac, loaded.value.vault, call, env, s.drawn);
      if change.Err? || change.value.None? || env.key.None? || !env.writes then q
      else
        q.(file := Some(Written(env.key.value, change.value.value, loaded.value.lastRecovery)),
           log := if call.op.SaveCredential? then s.log + [Saved(call.workspaceId, call.name, call.op.source)] else s.log)
  }

  function After(mac: Mac, s: Store, calls: seq<(Call, Env)>): Store
    decreases |calls|
  {
    if calls == [] then s else After(mac, Next(mac, s, calls[0].0, calls[0].1), calls[1..])
  }

  // Listing

  datatype Public = Public(
    name: string,
    serverUrl: string,
    enabled: bool,
    status: Status,
    lastError: Option<string>,
    hasCredential: bool,
    updatedAt: int)

  /** publicConnection */
  function PublicOf(c: Connection): Public {
    Public(c.name, c.serverUrl, c.enabled, c.status, c.lastError, c.credential.Some?, c.updatedAt)
  }

  /** indexPublicConnection */
  function PublicOfEntry(e: IndexEntry): Public {
    Public(e.name, e.serverUrl, e.enabled, e.status, e.lastError, e.hasCredential, e.updatedAt)
  }

  /** The rows of a listing by storage key, and what is said of the vault. */
  datatype Listing = Listing(rows: map<string, Public>, available: bool, recovery: Option<Recovery>)

  function RowsOf(v: Vault, workspaceId: string): map<string, Public> {
    map k | k in v && v[k].workspaceId == workspaceId :: PublicOf(v[k])
  }

  function RowsOfIndex(index: map<string, IndexEntry>, workspaceId: string): map<string, Public> {
    map k | k in index && index[k].workspaceId == workspaceId :: PublicOfEntry(index[k])
  }

  /** listLocalManagedMcpConnectionsSafe; any error but an unavailable key is thrown on. */
  function ListSafe(file: Option<File>, workspaceId: string, env: Env): (Option<File>, Result<Listing, Error>) {
    var (after, loaded) := Load(file, env);
    match loaded
    case Ok(l) => (after, Ok(Listing(RowsOf(l.vault, workspaceId), true, l.lastRecovery)))
    case Err(StorageUnavailable) =>
      (after,
       if after.None? then Ok(Listing(map[], false, None))
       else
         var index := if after.value.index.Some? then after.value.index.value else map[];
         Ok(Listing(RowsOfIndex(index, workspaceId), false, after.value.lastRecovery)))
    case Err(other) => (after, Err(other))
  }
}
