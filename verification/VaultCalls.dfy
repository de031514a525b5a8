/** What each call on the vault changes, when it is refused, and what a disconnect, a deletion
    or an invalidation takes away for good. */
module VaultCalls {
  import opened Numerals
  import opened Strings
  import opened Wrappers
  import opened VaultModel
  import opened VaultTheorems

  // ---------------------------------------------------------- which calls write

  /** The vault a call finds. */
  ghost predicate Finds(s: Store, env: Env, v: Vault) {
    var (_, loaded) := Load(s.file, env);
    loaded.Ok? && loaded.value.vault == v
  }

  function SlotOf(call: Call): string {
    ConnectionKey(call.workspaceId, call.name)
  }

  function RevisionOf(c: Connection): Option<nat> {
    if c.credential.Some? then Some(c.credential.value.revision) else None
  }

  /** The transaction a save names is stored, as it was begun and for this client. */
  ghost predicate Redeems(mac: Mac, c: Connection, source: Source, key: Option<Key>) {
    && source.AuthorizationCode? && source.handle.Some? && key.Some?
    && var stored := mac(key.value, source.handle.value.id);
    && stored in c.authorizations && c.authorizations[stored].revision == source.handle.value.revision
    && c.authorizations[stored].clientRevision == source.clientRevision
  }

  /** What a call demands of the vault it finds. */
  ghost predicate Accepted(mac: Mac, v: Vault, call: Call, env: Env) {
    if call.op.Create? then SlotOf(call) !in v
    else
      && SlotOf(call) in v
      && (call.op.SaveCredential? ==>
            if call.op.source.Refresh? then call.op.source.expected == RevisionOf(v[SlotOf(call)])
            else Redeems(mac, v[SlotOf(call)], call.op.source, env.key))
  }

  /** The call is written: it opens the vault, is accepted, and the file system takes it. */
  ghost predicate Writes(mac: Mac, s: Store, call: Call, env: Env) {
    && env.key.Some? && env.writes && Load(s.file, env).1.Ok?
    && Accepted(mac, Load(s.file, env).1.value.vault, call, env)
  }

  lemma MutateAccepts(mac: Mac, v: Vault, call: Call, env: Env, uuid: nat)
    requires env.key.Some?
    ensures var change := Mutate(mac, v, call, env, uuid);
      change.Ok? && change.value.Some? <==> Accepted(mac, v, call, env)
  {
    hide ConnectionKey, Created;
  }

  /** A call that is not written leaves the file the load left; one that is writes the vault,
      with its index and the note of the last recovery, under the key. Every call draws one
      revision, and exactly the written saves are logged. */
  lemma WrittenExactly(mac: Mac, s: Store, call: Call, env: Env)
    ensures var q := Next(mac, s, call, env);
      && q.drawn == s.drawn + 1
      && (if Writes(mac, s, call, env) then
            && q.file.Some? && q.file.value.sealedUnder == env.key.value
            && q.file.value.index == Some(IndexOf(q.file.value.vault))
            && q.file.value.lastRecovery == Load(s.file, env).1.value.lastRecovery
            && q.log == (if call.op.SaveCredential? then s.log + [Saved(call.workspaceId, call.name, call.op.source)] else s.log)
          else q.file == Load(s.file, env).0 && q.log == s.log)
  {
    hide Mutate, Load, IndexOf, Accepted;
    if env.key.Some? && Load(s.file, env).1.Ok? {
      MutateAccepts(mac, Load(s.file, env).1.value.vault, call, env, s.drawn);
    }
  }

  // ------------------------------------------------------- field by field

  /** Who a connection is, and what it was made with, never changes. */
  ghost predicate SameIdentity(c: Connection, d: Connection) {
    && d.id == c.id && d.workspaceId == c.workspaceId && d.name == c.name && d.serverUrl == c.serverUrl
    && d.oauth == c.oauth && d.createdAt == c.createdAt
  }

  /** A save stores a fresh credential; an invalidation or a disconnect removes it. */
  ghost predicate CredentialAfter(c: Connection, d: Connection, op: Op, drawn: nat) {
    d.credential ==
      if op.SaveCredential? then Some(Credential(op.tokens, drawn, op.expires))
      else if op.InvalidateCredential? || op.Disconnect? then None
      else c.credential
  }

  /** The transaction stored under a key: begun, redeemed or invalidated under its own id only,
      and dropped by a disconnect. */
  ghost predicate AuthorizationAfter(mac: Mac, key: Key, c: Connection, d: Connection, op: Op, drawn: nat, a: string) {
    if op.Disconnect? then a !in d.authorizations
    else if op.BeginAuthorization? && a == mac(key, op.authorizationId) then
      a in d.authorizations &&
      d.authorizations[a] == Authorization(drawn, op.expiresAt, op.codeVerifier, op.clientRevision)
    else if op.InvalidateAuthorization? && a == mac(key, op.authorizationId) then a !in d.authorizations
    else if op.SaveCredential? && op.source.AuthorizationCode? && op.source.handle.Some? && a == mac(key, op.source.handle.value.id) then
      a !in d.authorizations
    else
      (a in d.authorizations <==> a in c.authorizations) && (a in c.authorizations ==> d.authorizations[a] == c.authorizations[a])
  }

  /** The status says what was last known of the sign-in. */
  ghost predicate StatusAfter(c: Connection, d: Connection, op: Op) {
    && d.status ==
         (if op.SaveCredential? then Connected
          else if op.InvalidateCredential? then ReconnectRequired
          else if op.Disconnect? then NeedsAuth
          else if op.UpdateStatus? then op.status
          else c.status)
    && d.lastError ==
         (if op.SaveCredential? || op.Disconnect? then None
          else if op.UpdateStatus? then op.lastError
          else c.lastError)
    && d.enabled == (if op.SetEnabled? then op.enabled else if op.Disconnect? then false else c.enabled)
  }

  /** The first registration stays until it is invalidated, whatever else is saved; of
      discoveries the last one counts. */
  ghost predicate ClientAfter(c: Connection, d: Connection, op: Op, drawn: nat) {
    && d.registration ==
         (if op.InvalidateRegistration? then None
          else if op.SaveRegistration? && c.registration.None? then Some(Registration(op.client, drawn))
          else c.registration)
    && d.discovery ==
         (if op.InvalidateDiscovery? then None else if op.SaveDiscovery? then Some(op.discovery) else c.discovery)
  }

  /** The connection a call leaves for the one it finds. */
  ghost predicate Edited(mac: Mac, key: Key, c: Connection, d: Connection, op: Op, drawn: nat, now: int) {
    && SameIdentity(c, d) && CredentialAfter(c, d, op, drawn)
    && (forall a :: AuthorizationAfter(mac, key, c, d, op, drawn, a))
    && StatusAfter(c, d, op) && ClientAfter(c, d, op, drawn)
    && d.updatedAt == (if op.SaveRegistration? && c.registration.Some? then c.updatedAt else now)
  }

  /** What a connection starts with. */
  ghost predicate Begun(d: Connection, call: Call, now: int)
    requires call.op.Create?
  {
    && d.id == call.op.id && d.workspaceId == call.workspaceId && d.name == call.name && d.serverUrl == call.op.serverUrl
    && d.enabled && d.status == NeedsAuth && d.lastError.None? && d.createdAt == now && d.updatedAt == now
    && d.registration.None? && d.credential.None? && d.authorizations == map[] && d.discovery.None?
    && d.oauth.native == call.op.oauth.native
    && d.oauth.scopes == (if call.op.oauth.scopes == Some([]) then None else call.op.oauth.scopes)
    && d.oauth.issuer == IfTruthy(call.op.oauth.issuer) && d.oauth.clientId == IfTruthy(call.op.oauth.clientId)
    && d.oauth.clientSecret == IfTruthy(call.op.oauth.clientSecret)
  }

  lemma EditFields(mac: Mac, c: Connection, op: Op, env: Env, uuid: nat)
    requires env.key.Some? && !op.Create? && !op.Delete? && Edit(mac, c, op, env, uuid).Ok?
    ensures Edited(mac, env.key.value, c, Edit(mac, c, op, env, uuid).value, op, uuid, env.now)
  {
    var d := Edit(mac, c, op, env, uuid).value;
    forall a ensures AuthorizationAfter(mac, env.key.value, c, d, op, uuid, a) {
    }
  }

  /** A written call changes its own connection, as its name says, and no other. */
  lemma CallChanges(mac: Mac, s: Store, call: Call, env: Env)
    requires Writes(mac, s, call, env)
    ensures var v, w, k := Load(s.file, env).1.value.vault, Next(mac, s, call, env).file.value.vault, SlotOf(call);
      && (forall l | l != k :: (l in w <==> l in v) && (l in v ==> w[l] == v[l]))
      && (call.op.Delete? ==> k in v && k !in w)
      && (call.op.Create? ==> k !in v && k in w && Begun(w[k], call, env.now))
      && (!call.op.Delete? && !call.op.Create? ==>
            k in v && k in w && Edited(mac, env.key.value, v[k], w[k], call.op, s.drawn, env.now))
  {
    var v, k := Load(s.file, env).1.value.vault, SlotOf(call);
    MutateAccepts(mac, v, call, env, s.drawn);
    hide ConnectionKey, Load, IndexOf, Accepted, Edited, Edit;
    if k in v && !call.op.Create? && !call.op.Delete? {
      EditFields(mac, v[k], call.op, env, s.drawn);
    }
  }

  // ------------------------------------------------------------- refusals

  /** Why a call is refused, and when it has nothing to write. */
  lemma RefusedExactly(mac: Mac, v: Vault, call: Call, env: Env, uuid: nat)
    ensures var change, op, k := Mutate(mac, v, call, env, uuid), call.op, SlotOf(call);
      var locked := env.key.None? && (op.BeginAuthorization? || op.InvalidateAuthorization?);
      var code := op.SaveCredential? && op.source.AuthorizationCode? && k in v;
      && (change == Err(Exists) <==> op.Create? && k in v)
      && (change == Err(NotFound) <==>
            k !in v && !op.Create? && !op.SetEnabled? && !op.Disconnect? && !op.Delete? && !locked)
      && (change == Ok(None) <==> k !in v && (op.SetEnabled? || op.Disconnect? || op.Delete?))
      && (change == Err(CredentialChanged) <==>
            op.SaveCredential? && op.source.Refresh? && k in v && op.source.expected != RevisionOf(v[k]))
      && (change == Err(AuthorizationMissing) <==> code && op.source.handle.None?)
      && (change == Err(StorageUnavailable) <==> locked || (code && op.source.handle.Some? && env.key.None?))
      && (change == Err(AuthorizationConsumed) <==>
            code && op.source.handle.Some? && env.key.Some? &&
            AuthorizationAt(v, k, mac(env.key.value, op.source.handle.value.id)) != Some(op.source.handle.value.revision))
      && (change == Err(ClientChanged) <==>
            code && op.source.handle.Some? && env.key.Some? &&
            var a := mac(env.key.value, op.source.handle.value.id);
            AuthorizationAt(v, k, a) == Some(op.source.handle.value.revision) &&
            v[k].authorizations[a].clientRevision != op.source.clientRevision)
      && change != Err(WriteFailed)
  {
    hide ConnectionKey, Created;
  }

  // ------------------------------------------------------------ gone for good

  /** Nothing stored in the slot was drawn before `n`. */
  ghost predicate NewerOnly(v: Vault, k: string, n: nat) {
    && (forall a :: AuthorizationAt(v, k, a).Some? ==> AuthorizationAt(v, k, a).value >= n)
    && (CredentialAt(v, k).Some? ==> CredentialAt(v, k).value >= n)
  }

  /** The transaction is stored nowhere in the slot. */
  ghost predicate Redeemed(v: Vault, k: string, revision: nat) {
    forall a :: AuthorizationAt(v, k, a) != Some(revision)
  }

  /** A call stores nothing in any slot but what was stored there, or what it draws; what a
      written save uses was stored in its slot. */
  lemma CallStores(mac: Mac, v: Vault, call: Call, env: Env, uuid: nat)
    requires var change := Mutate(mac, v, call, env, uuid); change.Ok? && change.value.Some?
    ensures var w := Mutate(mac, v, call, env, uuid).value.value;
      && (forall l, a :: AuthorizationAt(w, l, a) == None || AuthorizationAt(w, l, a) == Some(uuid) ||
                         AuthorizationAt(w, l, a) == AuthorizationAt(v, l, a))
      && (forall l :: CredentialAt(w, l) == None || CredentialAt(w, l) == Some(uuid) || CredentialAt(w, l) == CredentialAt(v, l))
    ensures call.op.SaveCredential? ==>
      var e := Saved(call.workspaceId, call.name, call.op.source);
      && (Consumed(e).Some? ==> exists a :: AuthorizationAt(v, SlotOf(call), a) == Consumed(e))
      && (Expected(e).Some? ==> CredentialAt(v, SlotOf(call)) == Expected(e))
  {
    hide ConnectionKey;
    var k := SlotOf(call);
    if call.op.SaveCredential? && call.op.source.AuthorizationCode? {
      var a := mac(env.key.value, call.op.source.handle.value.id);
      assert AuthorizationAt(v, k, a) == Some(call.op.source.handle.value.revision);
    }
  }

  /** What one call does to a slot that holds nothing older than `n`. */
  lemma NewerStep(mac: Mac, s: Store, call: Call, env: Env, k: string, n: nat)
    requires NewerOnly(VaultOf(s.file), k, n) && n <= s.drawn
    ensures var q := Next(mac, s, call, env);
      && NewerOnly(VaultOf(q.file), k, n) && n <= q.drawn && s.log <= q.log
      && (forall i | |s.log| <= i < |q.log| && ConnectionKey(q.log[i].workspaceId, q.log[i].name) == k ::
            (Consumed(q.log[i]).Some? ==> Consumed(q.log[i]).value >= n) &&
            (Expected(q.log[i]).Some? ==> Expected(q.log[i]).value >= n))
  {
    LoadWithin(s.file, env);
    var v := VaultOf(Load(s.file, env).0);
    var change := Mutate(mac, v, call, env, s.drawn);
    if change.Ok? && change.value.Some? { CallStores(mac, v, call, env, s.drawn); }
    hide ConnectionKey, Mutate, Load, IndexOf, AuthorizationAt, CredentialAt, Consumed, Expected;
  }

  /** Every later save of this connection uses a transaction or expects a revision drawn
      since. */
  ghost predicate OnlyNewer(log: seq<Saved>, from: nat, k: string, n: nat) {
    forall i | from <= i < |log| && ConnectionKey(log[i].workspaceId, log[i].name) == k ::
      (Consumed(log[i]).Some? ==> Consumed(log[i]).value >= n) && (Expected(log[i]).Some? ==> Expected(log[i]).value >= n)
  }

  lemma {:induction false} RunNewer(mac: Mac, s: Store, calls: seq<(Call, Env)>, k: string, n: nat)
    requires NewerOnly(VaultOf(s.file), k, n) && n <= s.drawn
    ensures var q := After(mac, s, calls);
      s.log <= q.log && OnlyNewer(q.log, |s.log|, k, n)
    decreases |calls|
  {
    hide NewerOnly, Next, Consumed, Expected, ConnectionKey;
    if calls != [] {
      NewerStep(mac, s, calls[0].0, calls[0].1, k, n);
      RunNewer(mac, Next(mac, s, calls[0].0, calls[0].1), calls[1..], k, n);
    }
  }

  lemma EmptySlot(mac: Mac, s: Store, call: Call, env: Env)
    requires Writes(mac, s, call, env) && (call.op.Disconnect? || call.op.Delete?)
    ensures var q := Next(mac, s, call, env); NewerOnly(VaultOf(q.file), SlotOf(call), q.drawn)
  {
    CallChanges(mac, s, call, env);
    WrittenExactly(mac, s, call, env);
    hide ConnectionKey, Next, Writes, IndexOf, Load, SameIdentity, StatusAfter, ClientAfter;
    var w, k := Next(mac, s, call, env).file.value.vault, SlotOf(call);
    if call.op.Disconnect? {
      forall a ensures AuthorizationAt(w, k, a).None? {
        assert AuthorizationAfter(mac, env.key.value, Load(s.file, env).1.value.vault[k], w[k], call.op, s.drawn, a);
      }
    }
  }

  /** After a written disconnect or deletion, in every run, no save with an authorization begun
      before or expecting a credential stored before succeeds for that connection. */
  lemma ForgottenForGood(mac: Mac, s: Store, call: Call, env: Env, later: seq<(Call, Env)>)
    requires Writes(mac, s, call, env) && (call.op.Disconnect? || call.op.Delete?)
    ensures var q := Next(mac, s, call, env);
      OnlyNewer(After(mac, q, later).log, |q.log|, SlotOf(call), q.drawn)
  {
    EmptySlot(mac, s, call, env);
    hide Next, Writes, NewerOnly, OnlyNewer, After, ConnectionKey;
    RunNewer(mac, Next(mac, s, call, env), later, SlotOf(call), Next(mac, s, call, env).drawn);
  }

  /** After a written disconnect the connection is still listed, without a credential, disabled
      and to be authorized anew, and none of its authorizations is left. */
  lemma DisconnectedListing(mac: Mac, s: Store, call: Call, env: Env, open: Env)
    requires Writes(mac, s, call, env) && call.op.Disconnect? && open.key == env.key && StoreInv(s)
    ensures var q, k := Next(mac, s, call, env), SlotOf(call);
      && k in q.file.value.vault && q.file.value.vault[k].authorizations == map[]
      && var (_, listing) := ListSafe(q.file, call.workspaceId, open);
      && listing.Ok? && k in listing.value.rows
      && var row := listing.value.rows[k];
      && row.name == call.name && !row.hasCredential && !row.enabled && row.status == NeedsAuth && row.lastError.None?
  {
    CallChanges(mac, s, call, env);
    WrittenExactly(mac, s, call, env);
    StepKeeps(mac, s, call, env);
    var q, k := Next(mac, s, call, env), SlotOf(call);
    hide Next, Writes, IndexOf, SameIdentity, ClientAfter, Trimmed;
    var c, d := Load(s.file, env).1.value.vault[k], q.file.value.vault[k];
    assert forall a :: AuthorizationAfter(mac, env.key.value, c, d, call.op, s.drawn, a);
    assert d.authorizations == map[];
    assert Keyed(q.file.value.vault);
    ConnectionKeyInjective(d.workspaceId, d.name, call.workspaceId, call.name);
    hide ConnectionKey;
  }

  // ------------------------------------------- one transaction, one credential

  lemma RedeemedStep(mac: Mac, s: Store, call: Call, env: Env, k: string, revision: nat)
    requires Redeemed(VaultOf(s.file), k, revision) && revision < s.drawn
    ensures var q := Next(mac, s, call, env);
      && Redeemed(VaultOf(q.file), k, revision) && revision < q.drawn && s.log <= q.log
      && (forall i | |s.log| <= i < |q.log| && ConnectionKey(q.log[i].workspaceId, q.log[i].name) == k ::
            Consumed(q.log[i]) != Some(revision))
  {
    LoadWithin(s.file, env);
    var v := VaultOf(Load(s.file, env).0);
    var change := Mutate(mac, v, call, env, s.drawn);
    if change.Ok? && change.value.Some? { CallStores(mac, v, call, env, s.drawn); }
    hide ConnectionKey, Mutate, Load, IndexOf, AuthorizationAt, CredentialAt, Consumed, Expected;
  }

  lemma {:induction false} RunRedeemed(mac: Mac, s: Store, calls: seq<(Call, Env)>, k: string, revision: nat)
    requires Redeemed(VaultOf(s.file), k, revision) && revision < s.drawn
    ensures var q := After(mac, s, calls);
      && s.log <= q.log
      && (forall i | |s.log| <= i < |q.log| && ConnectionKey(q.log[i].workspaceId, q.log[i].name) == k ::
            Consumed(q.log[i]) != Some(revision))
    decreases |calls|
  {
    hide Redeemed, Next, Consumed, ConnectionKey;
    if calls != [] {
      RedeemedStep(mac, s, calls[0].0, calls[0].1, k, revision);
      RunRedeemed(mac, Next(mac, s, calls[0].0, calls[0].1), calls[1..], k, revision);
    }
  }

  /** After a written invalidation of an authorization, in every run, no save with its handle
      succeeds for that connection. */
  lemma InvalidatedForGood(mac: Mac, s: Store, call: Call, env: Env, later: seq<(Call, Env)>, revision: nat)
    requires CasInv(s) && Writes(mac, s, call, env) && call.op.InvalidateAuthorization?
    requires AuthorizationAt(Load(s.file, env).1.value.vault, SlotOf(call), mac(env.key.value, call.op.authorizationId)) == Some(revision)
    ensures var q, r := Next(mac, s, call, env), After(mac, Next(mac, s, call, env), later);
      forall i | |q.log| <= i < |r.log| && ConnectionKey(r.log[i].workspaceId, r.log[i].name) == SlotOf(call) ::
        Consumed(r.log[i]) != Some(revision)
  {
    InvalidatedGone(mac, s, call, env, revision);
    hide Next, Writes, Redeemed, After, ConnectionKey, CasInv, AuthorizationAt, Load;
    RunRedeemed(mac, Next(mac, s, call, env), later, SlotOf(call), revision);
  }

  lemma InvalidatedGone(mac: Mac, s: Store, call: Call, env: Env, revision: nat)
    requires CasInv(s) && Writes(mac, s, call, env) && call.op.InvalidateAuthorization?
    requires AuthorizationAt(Load(s.file, env).1.value.vault, SlotOf(call), mac(env.key.value, call.op.authorizationId)) == Some(revision)
    ensures var q := Next(mac, s, call, env); Redeemed(VaultOf(q.file), SlotOf(call), revision) && revision < q.drawn
  {
    LoadWithin(s.file, env);
    CallChanges(mac, s, call, env);
    WrittenExactly(mac, s, call, env);
    var v, w, k := Load(s.file, env).1.value.vault, Next(mac, s, call, env).file.value.vault, SlotOf(call);
    var a := mac(env.key.value, call.op.authorizationId);
    WithinKeeps(v, VaultOf(s.file), s.log, s.drawn, s.drawn);
    Unique(v, s.drawn, k, a, a, revision);
    hide ConnectionKey, Next, Writes, IndexOf, Load, SameIdentity, StatusAfter, ClientAfter, AllUsedUp, UsedOnce, RevisionsInv;
    forall b ensures AuthorizationAt(w, k, b) != Some(revision) {
      assert AuthorizationAfter(mac, env.key.value, v[k], w[k], call.op, s.drawn, b);
      if AuthorizationAt(v, k, b) == Some(revision) { Unique(v, s.drawn, k, a, b, revision); }
    }
  }

  lemma Unique(v: Vault, drawn: nat, k: string, a: string, b: string, revision: nat)
    requires RevisionsInv(v, drawn)
    requires AuthorizationAt(v, k, a) == Some(revision) == AuthorizationAt(v, k, b)
    ensures a == b && revision < drawn
  {
    hide AuthorizationAt, CredentialAt;
  }

  /** The first registration of a connection stays: whatever is saved after it, and whatever
      other calls are written, nothing but an invalidation or a deletion replaces it. */
  lemma RegistrationStays(mac: Mac, s: Store, call: Call, env: Env, k: string)
    requires Writes(mac, s, call, env)
    requires var v := Load(s.file, env).1.value.vault; k in v && v[k].registration.Some?
    ensures var v, w := Load(s.file, env).1.value.vault, Next(mac, s, call, env).file.value.vault;
      (k in w && w[k].registration == v[k].registration) ||
      (SlotOf(call) == k && (call.op.InvalidateRegistration? || call.op.Delete?))
  {
    CallChanges(mac, s, call, env);
    hide ConnectionKey, Next, Writes, IndexOf, Load, SameIdentity, StatusAfter, AuthorizationAfter;
  }

  /** The credential is not the slot's. */
  ghost predicate Dropped(v: Vault, k: string, revision: nat) {
    CredentialAt(v, k) != Some(revision)
  }

  lemma DroppedStep(mac: Mac, s: Store, call: Call, env: Env, k: string, revision: nat)
    requires Dropped(VaultOf(s.file), k, revision) && revision < s.drawn
    ensures var q := Next(mac, s, call, env);
      && Dropped(VaultOf(q.file), k, revision) && revision < q.drawn && s.log <= q.log
      && (forall i | |s.log| <= i < |q.log| && ConnectionKey(q.log[i].workspaceId, q.log[i].name) == k ::
            Expected(q.log[i]) != Some(revision))
  {
    LoadWithin(s.file, env);
    var v := VaultOf(Load(s.file, env).0);
    var change := Mutate(mac, v, call, env, s.drawn);
    if change.Ok? && change.value.Some? { CallStores(mac, v, call, env, s.drawn); }
    hide ConnectionKey, Mutate, Load, IndexOf, AuthorizationAt, CredentialAt, Consumed, Expected;
  }

  lemma {:induction false} RunDropped(mac: Mac, s: Store, calls: seq<(Call, Env)>, k: string, revision: nat)
    requires Dropped(VaultOf(s.file), k, revision) && revision < s.drawn
    ensures var q := After(mac, s, calls);
      && s.log <= q.log
      && (forall i | |s.log| <= i < |q.log| && ConnectionKey(q.log[i].workspaceId, q.log[i].name) == k ::
            Expected(q.log[i]) != Some(revision))
    decreases |calls|
  {
    hide Dropped, Next, Expected, ConnectionKey;
    if calls != [] {
      DroppedStep(mac, s, calls[0].0, calls[0].1, k, revision);
      RunDropped(mac, Next(mac, s, calls[0].0, calls[0].1), calls[1..], k, revision);
    }
  }

  /** After a written invalidation of a credential, or a written save that replaces it, in
      every run, no refresh that expects that credential succeeds for that connection. */
  lemma ReplacedForGood(mac: Mac, s: Store, call: Call, env: Env, later: seq<(Call, Env)>, revision: nat)
    requires CasInv(s) && Writes(mac, s, call, env) && (call.op.InvalidateCredential? || call.op.SaveCredential?)
    requires CredentialAt(Load(s.file, env).1.value.vault, SlotOf(call)) == Some(revision)
    ensures var q, r := Next(mac, s, call, env), After(mac, Next(mac, s, call, env), later);
      forall i | |q.log| <= i < |r.log| && ConnectionKey(r.log[i].workspaceId, r.log[i].name) == SlotOf(call) ::
        Expected(r.log[i]) != Some(revision)
  {
    ReplacedGone(mac, s, call, env, revision);
    hide Next, Writes, Dropped, After, ConnectionKey, CasInv, CredentialAt, Load;
    RunDropped(mac, Next(mac, s, call, env), later, SlotOf(call), revision);
  }

  lemma ReplacedGone(mac: Mac, s: Store, call: Call, env: Env, revision: nat)
    requires CasInv(s) && Writes(mac, s, call, env) && (call.op.InvalidateCredential? || call.op.SaveCredential?)
    requires CredentialAt(Load(s.file, env).1.value.vault, SlotOf(call)) == Some(revision)
    ensures var q := Next(mac, s, call, env); Dropped(VaultOf(q.file), SlotOf(call), revision) && revision < q.drawn
  {
    LoadWithin(s.file, env);
    CallChanges(mac, s, call, env);
    WrittenExactly(mac, s, call, env);
    var v := Load(s.file, env).1.value.vault;
    WithinKeeps(v, VaultOf(s.file), s.log, s.drawn, s.drawn);
    assert revision < s.drawn by { hide Load, Next, Writes, ConnectionKey, IndexOf; }
    hide ConnectionKey, Next, Writes, IndexOf, Load, SameIdentity, StatusAfter, ClientAfter, AllUsedUp, UsedOnce, RevisionsInv;
  }

  // ------------------------------------------------------------------ listing

  /** A listing of an opened vault has a row for exactly the connections of the workspace, and
      the row says what the connection says, but of its secrets only that there is one. */
  lemma ListedExactly(file: Option<File>, workspaceId: string, env: Env, k: string)
    requires Load(file, env).1.Ok?
    ensures var v, listing := Load(file, env).1.value.vault, ListSafe(file, workspaceId, env).1;
      && listing.Ok? && listing.value.available
      && (k in listing.value.rows <==> k in v && v[k].workspaceId == workspaceId)
      && (k in listing.value.rows ==>
            var row, c := listing.value.rows[k], v[k];
            && row.name == c.name && row.serverUrl == c.serverUrl && row.enabled == c.enabled && row.status == c.status
            && row.lastError == c.lastError && row.updatedAt == c.updatedAt && (row.hasCredential <==> c.credential.Some?))
  {
    hide Load;
  }

  /** A listing of a vault whose key is unavailable is that of its index, with the note of the
      last recovery, and none when there is no index; any other error is thrown on. */
  lemma LockedListing(file: Option<File>, workspaceId: string, env: Env, k: string)
    requires Load(file, env).1.Err?
    ensures var error, listing := Load(file, env).1.error, ListSafe(file, workspaceId, env).1;
      if error != StorageUnavailable then listing == Err(error)
      else
        && file.Some? && listing.Ok? && !listing.value.available && listing.value.recovery == file.value.lastRecovery
        && (k in listing.value.rows <==>
              file.value.index.Some? && k in file.value.index.value && file.value.index.value[k].workspaceId == workspaceId)
        && (k in listing.value.rows ==>
              var row, e := listing.value.rows[k], file.value.index.value[k];
              && row.name == e.name && row.serverUrl == e.serverUrl && row.enabled == e.enabled && row.status == e.status
              && row.lastError == e.lastError && row.updatedAt == e.updatedAt && row.hasCredential == e.hasCredential)
  {
  }
}
