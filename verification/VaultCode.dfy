/** The vault's persistence: each call loads the file, changes the loaded vault field by
    field, and writes it back, while it holds the per-path queue. */
module VaultCode {
  import opened Wrappers
  import opened VaultModel

  class LocalManagedMcpVault {
    var file: Option<File>
    var drawn: nat
    var log: seq<Saved>

    ghost function State(): Store
      reads this
    {
      Store(file, drawn, log)
    }

    constructor ()
      ensures State() == Store(None, 0, [])
    {
      file, drawn, log := None, 0, [];
    }

    /** writeVault, once its write has gone through. */
    method WriteVault(key: Key, v: Vault, lastRecovery: Option<Recovery>)
      modifies this`file
      ensures file == Some(Written(key, v, lastRecovery))
    {
      var index := map k | k in v :: IndexEntryOf(v[k]);
      file := Some(File(key, v, Some(index), lastRecovery));
    }

    /** recoverVaultLocked */
    method RecoverVaultLocked(key: Key, env: Env) returns (loaded: Result<Loaded, Error>)
      requires file.Some?
      modifies this`file
      ensures (file, loaded) == Recover(old(file).value, key, env)
    {
      var index := file.value.index;
      file := None;
      var v: Vault := map[];
      if index.Some? {
        v := map k | k in index.value :: Rebuilt(index.value[k]);
      }
      var lastRecovery := Recovery(env.now, env.backup);
      if !env.recoveryWrites {
        return Err(WriteFailed);
      }
      WriteVault(key, v, Some(lastRecovery));
      loaded := Ok(Loaded(v, Some(lastRecovery)));
    }

    /** loadVaultLocked */
    method LoadVaultLocked(env: Env) returns (loaded: Result<Loaded, Error>)
      modifies this`file
      ensures (file, loaded) == Load(old(file), env)
    {
      if file.None? {
        return Ok(Loaded(map[], None));
      }
      if env.key.None? {
        return Err(StorageUnavailable);
      }
      if file.value.sealedUnder == env.key.value {
        return Ok(Loaded(file.value.vault, file.value.lastRecovery));
      }
      loaded := RecoverVaultLocked(env.key.value, env);
    }

    /** The mutation callbacks, on the connection they looked up. */
    method EditInPlace(mac: Mac, before: Connection, op: Op, env: Env, uuid: nat)
      returns (error: Option<Error>, connection: Connection)
      requires !op.Create? && !op.Delete?
      ensures Edit(mac, before, op, env, uuid) == if error.Some? then Err(error.value) else Ok(connection)
    {
      connection, error := before, None;
      match op {
        case SaveCredential(source, tokens, expires) =>
          if source.Refresh? {
            var current := None;
            if connection.credential.Some? {
              current := Some(connection.credential.value.revision);
            }
            if source.expected != current {
              return Some(CredentialChanged), connection;
            }
          } else {
            if source.handle.None? {
              return Some(AuthorizationMissing), connection;
            }
            if env.key.None? {
              return Some(StorageUnavailable), connection;
            }
            var stored := mac(env.key.value, source.handle.value.id);
            if stored !in connection.authorizations ||
               connection.authorizations[stored].revision != source.handle.value.revision
            {
              return Some(AuthorizationConsumed), connection;
            }
            if connection.authorizations[stored].clientRevision != source.clientRevision {
              return Some(ClientChanged), connection;
            }
            connection := connection.(authorizations := connection.authorizations - {stored});
          }
          connection := connection.(credential := Some(Credential(tokens, uuid, expires)));
          connection := connection.(status := Connected);
          connection := connection.(lastError := None);
        case InvalidateCredential =>
          connection := connection.(credential := None);
          connection := connection.(status := ReconnectRequired);
        case BeginAuthorization(id, codeVerifier, expiresAt, clientRevision) =>
          if env.key.None? {
            return Some(StorageUnavailable), connection;
          }
          var begun := Authorization(uuid, expiresAt, codeVerifier, clientRevision);
          connection := connection.(authorizations := connection.authorizations[mac(env.key.value, id) := begun]);
        case InvalidateAuthorization(id) =>
          if env.key.None? {
            return Some(StorageUnavailable), connection;
          }
          connection := connection.(authorizations := connection.authorizations - {mac(env.key.value, id)});
        case SaveRegistration(client) =>
          if connection.registration.Some? {
            return None, connection;
          }
          connection := connection.(registration := Some(Registration(client, uuid)));
        case InvalidateRegistration =>
          connection := connection.(registration := None);
        case SaveDiscovery(discovery) =>
          connection := connection.(discovery := Some(discovery));
        case InvalidateDiscovery =>
          connection := connection.(discovery := None);
        case UpdateStatus(status, lastError) =>
          connection := connection.(status := status);
          connection := connection.(lastError := lastError);
        case SetEnabled(enabled) =>
          connection := connection.(enabled := enabled);
        case Disconnect =>
          connection := connection.(credential := None);
          connection := connection.(authorizations := map[]);
          connection := connection.(enabled := false);
          connection := connection.(status := NeedsAuth);
          connection := connection.(lastError := None);
      }
      connection := connection.(updatedAt := env.now);
    }

    /** withVaultMutation, for each of the calls that use it. */
    method WithVaultMutation(mac: Mac, call: Call, env: Env)
      modifies this
      ensures State() == Next(mac, old(State()), call, env)
    {
      var uuid := drawn;
      drawn := drawn + 1;
      var loaded := LoadVaultLocked(env);
      if loaded.Err? {
        return;
      }
      var connections := loaded.value.vault;
      var k := ConnectionKey(call.workspaceId, call.name);
      if call.op.Create? {
        if k in connections {
          return;
        }
        connections := connections[k := Created(call, env.now)];
      } else if k !in connections {
        return;
      } else if call.op.Delete? {
        connections := connections - {k};
      } else {
        var error, connection := EditInPlace(mac, connections[k], call.op, env, uuid);
        if error.Some? {
          return;
        }
        connections := connections[k := connection];
      }
      if env.key.None? || !env.writes {
        return;
      }
      WriteVault(env.key.value, connections, loaded.value.lastRecovery);
      if call.op.SaveCredential? {
        log := log + [Saved(call.workspaceId, call.name, call.op.source)];
      }
    }

    /** listLocalManagedMcpConnectionsSafe */
    method List(workspaceId: string, env: Env) returns (listing: Result<Listing, Error>)
      modifies this`file
      ensures (file, listing) == ListSafe(old(file), workspaceId, env)
    {
      var loaded := LoadVaultLocked(env);
      if loaded.Ok? {
        var v := loaded.value.vault;
        return Ok(Listing(map k | k in v && v[k].workspaceId == workspaceId :: PublicOf(v[k]), true, loaded.value.lastRecovery));
      }
      if loaded.error != StorageUnavailable {
        return Err(loaded.error);
      }
      if file.None? {
        return Ok(Listing(map[], false, None));
      }
      var index := map[];
      if file.value.index.Some? {
        index := file.value.index.value;
      }
      var rows := map k | k in index && index[k].workspaceId == workspaceId :: PublicOfEntry(index[k]);
      listing := Ok(Listing(rows, false, file.value.lastRecovery));
    }
  }
}
