/** What the vault store keeps over every run of calls, key losses, recoveries and failed
    writes. */
module VaultTheorems {
  import opened Numerals
  import opened Strings
  import opened Wrappers
  import opened VaultModel

  // Storage keys

  lemma PrintedHasNoColon(n: nat)
    ensures ':' !in Print(10, n)
  {
  }

  /** Distinct (workspace, name) pairs never share a slot. */
  lemma ConnectionKeyInjective(w1: string, n1: string, w2: string, n2: string)
    requires ConnectionKey(w1, n1) == ConnectionKey(w2, n2)
    ensures w1 == w2 && n1 == n2
  {
    hide Print;
    PrintedHasNoColon(|w1|);
    PrintedHasNoColon(|w2|);
    assert ConnectionKey(w1, n1) == Print(10, |w1|) + [':'] + (w1 + n1);
    assert ConnectionKey(w2, n2) == Print(10, |w2|) + [':'] + (w2 + n2);
    HeadsAgree(Print(10, |w1|), Print(10, |w2|), w1 + n1, w2 + n2, ':');
    PrintInjective(10, |w1|, |w2|);
    assert w1 == (w1 + n1)[..|w1|] && w2 == (w2 + n2)[..|w2|];
    assert n1 == (w1 + n1)[|w1|..] && n2 == (w2 + n2)[|w2|..];
  }

  // Invariants of a stored vault

  /** Every connection sits in the slot of its workspace and name. */
  ghost predicate Keyed(v: Vault) {
    forall k :: k in v ==> k == ConnectionKey(v[k].workspaceId, v[k].name)
  }

  /** Optional OAuth fields are absent rather than empty. */
  ghost predicate Trimmed(v: Vault) {
    forall k :: k in v ==> v[k].oauth.issuer != Some("") && v[k].oauth.clientId != Some("")
  }

  /** The index of a version 2 file is that of its vault. */
  ghost predicate Indexed(file: File) {
    file.index.Some? ==> file.index.value == IndexOf(file.vault)
  }

  ghost predicate FileInv(file: File) {
    Keyed(file.vault) && Trimmed(file.vault) && Indexed(file)
  }

  ghost predicate StoreInv(s: Store) {
    s.file.Some? ==> FileInv(s.file.value)
  }

  lemma RebuiltInv(index: Option<map<string, IndexEntry>>)
    requires index.Some? ==> exists v :: Keyed(v) && index.value == IndexOf(v)
    ensures Keyed(RebuiltVault(index)) && Trimmed(RebuiltVault(index))
  {
    hide ConnectionKey;
  }

  lemma LoadKeeps(s: Store, env: Env)
    requires StoreInv(s)
    ensures var (file, loaded) := Load(s.file, env);
            && StoreInv(s.(file := file))
            && (loaded.Ok? ==> Keyed(loaded.value.vault) && Trimmed(loaded.value.vault))
  {
    hide Keyed, Trimmed, RebuiltVault, IndexOf;
    if s.file.Some? {
      var file := s.file.value;
      if file.index.Some? {
        assert Keyed(file.vault) && file.index.value == IndexOf(file.vault);
      }
      RebuiltInv(file.index);
    } else {
      EmptyInv();
    }
  }

  lemma EmptyInv()
    ensures Keyed(map[]) && Trimmed(map[])
  {
  }

  lemma EditKeeps(mac: Mac, c: Connection, op: Op, env: Env, uuid: nat)
    ensures var e := Edit(mac, c, op, env, uuid);
            e.Ok? ==> e.value.workspaceId == c.workspaceId && e.value.name == c.name && e.value.oauth == c.oauth
  {
  }

  lemma MutateKeeps(mac: Mac, v: Vault, call: Call, env: Env, uuid: nat)
    requires Keyed(v) && Trimmed(v)
    ensures var change := Mutate(mac, v, call, env, uuid);
            change.Ok? && change.value.Some? ==> Keyed(change.value.value) && Trimmed(change.value.value)
  {
    hide ConnectionKey, Edit;
    var k := ConnectionKey(call.workspaceId, call.name);
    if k in v {
      EditKeeps(mac, v[k], call.op, env, uuid);
    }
  }

  lemma StepKeeps(mac: Mac, s: Store, call: Call, env: Env)
    requires StoreInv(s)
    ensures StoreInv(Next(mac, s, call, env))
  {
    hide Keyed, Trimmed, IndexOf, Mutate, Load;
    LoadKeeps(s, env);
    var (file, loaded) := Load(s.file, env);
    if loaded.Ok? {
      MutateKeeps(mac, loaded.value.vault, call, env, s.drawn);
    }
  }

  /** Over every run, the file stays well keyed and its index that of its vault. */
  lemma {:induction false} RunKeeps(mac: Mac, s: Store, calls: seq<(Call, Env)>)
    requires StoreInv(s)
    ensures StoreInv(After(mac, s, calls))
    decreases |calls|
  {
    if calls != [] {
      StepKeeps(mac, s, calls[0].0, calls[0].1);
      RunKeeps(mac, Next(mac, s, calls[0].0, calls[0].1), calls[1..]);
    }
  }

  /** The listing served from the plaintext index when the key is unavailable has the rows
      and the recovery note of the decrypted listing, for every vault a run leaves. */
  lemma ListingsAgree(mac: Mac, s: Store, calls: seq<(Call, Env)>, workspaceId: string, locked: Env, open: Env)
    requires StoreInv(s)
    requires After(mac, s, calls).file.Some? && After(mac, s, calls).file.value.index.Some?
    requires locked.key == None && open.key == Some(After(mac, s, calls).file.value.sealedUnder)
    ensures var file := After(mac, s, calls).file;
            var (f1, l1) := ListSafe(file, workspaceId, locked);
            var (f2, l2) := ListSafe(file, workspaceId, open);
            && f1 == f2 == file && l1.Ok? && l2.Ok?
            && l1.value.rows == l2.value.rows && l1.value.recovery == l2.value.recovery
            && !l1.value.available && l2.value.available
  {
    RunKeeps(mac, s, calls);
    RowsAgree(After(mac, s, calls).file.value.vault, workspaceId);
  }

  lemma RowsAgree(v: Vault, workspaceId: string)
    ensures RowsOfIndex(IndexOf(v), workspaceId) == RowsOf(v, workspaceId)
  {
    assert forall k :: k in v ==> PublicOfEntry(IndexOf(v)[k]) == PublicOf(v[k]);
  }

  /** A listing names each connection of a workspace once. */
  lemma NamesUnique(v: Vault, workspaceId: string, k1: string, k2: string)
    requires Keyed(v) && k1 in RowsOf(v, workspaceId) && k2 in RowsOf(v, workspaceId)
    requires RowsOf(v, workspaceId)[k1].name == RowsOf(v, workspaceId)[k2].name
    ensures k1 == k2
  {
  }

  // Recovery

  /** A connection recovered from its index entry: same identity, no secret. */
  ghost predicate Recovered(before: Connection, r: Connection) {
    && r.id == before.id && r.workspaceId == before.workspaceId && r.name == before.name
    && r.serverUrl == before.serverUrl && r.enabled == before.enabled
    && r.oauth == before.oauth.(clientSecret := None)
    && r.createdAt == before.createdAt && r.updatedAt == before.updatedAt
    && r.credential == None && r.authorizations == map[] && r.registration == None && r.discovery == None
    && r.status == ReconnectRequired && r.lastError == Some(RECOVERED_ERROR)
  }

  /** Opening a version 2 file with another key rebuilds the same connections without their
      secrets and notes the quarantine; the file it leaves opens with that key. */
  lemma RecoveryKeeps(file: File, env: Env)
    requires FileInv(file) && file.index.Some?
    requires env.key.Some? && env.key.value != file.sealedUnder && env.recoveryWrites
    ensures var (after, loaded) := Load(Some(file), env);
            && after.Some? && loaded.Ok? && after.value.vault == loaded.value.vault
            && after.value.sealedUnder == env.key.value && FileInv(after.value)
            && after.value.lastRecovery == loaded.value.lastRecovery == Some(Recovery(env.now, env.backup))
            && loaded.value.vault.Keys == file.vault.Keys
            && forall k :: k in file.vault ==> Recovered(file.vault[k], loaded.value.vault[k])
  {
    hide ConnectionKey;
    assert Keyed(file.vault) && file.index.value == IndexOf(file.vault);
    RebuiltInv(file.index);
  }

  /** Recovering a recovered file gives the same vault. */
  lemma RecoveryIdempotent(file: File, first: Env, second: Env)
    requires first.key.Some? && first.key.value != file.sealedUnder && first.recoveryWrites
    requires second.key.Some? && second.key != first.key && second.recoveryWrites
    ensures var (once, _) := Load(Some(file), first);
            once.Some? &&
            var (twice, _) := Load(once, second);
            twice.Some? && twice.value.vault == once.value.vault
  {
    var v := RebuiltVault(file.index);
    assert RebuiltVault(Some(IndexOf(v))) == v;
  }

  /** A version 1 file, which has no index, recovers to no connections; and a recovery whose
      write fails leaves no file at all, so that the next load finds an empty vault. */
  lemma RecoveryLoses(file: File, env: Env, next: Env)
    requires env.key.Some? && env.key.value != file.sealedUnder
    ensures file.index.None? && env.recoveryWrites ==> Load(Some(file), env).0.value.vault == map[]
    ensures !env.recoveryWrites ==>
      Load(Some(file), env) == (None, Err(WriteFailed)) && Load(None, next).1 == Ok(Loaded(map[], None))
  {
  }

  // Compare and set

  function AuthorizationAt(v: Vault, k: string, a: string): Option<nat> {
    if k in v && a in v[k].authorizations then Some(v[k].authorizations[a].revision) else None
  }

  function CredentialAt(v: Vault, k: string): Option<nat> {
    if k in v && v[k].credential.Some? then Some(v[k].credential.value.revision) else None
  }

  /** `w` holds no revision, in any place, that `v` does not hold there. */
  ghost predicate Within(w: Vault, v: Vault) {
    && (forall k, a :: AuthorizationAt(w, k, a).Some? ==> AuthorizationAt(w, k, a) == AuthorizationAt(v, k, a))
    && (forall k :: CredentialAt(w, k).Some? ==> CredentialAt(w, k) == CredentialAt(v, k))
  }

  /** Stored revisions were drawn before, and sit in one place each. */
  ghost predicate RevisionsInv(v: Vault, drawn: nat) {
    && (forall k, a :: AuthorizationAt(v, k, a).Some? ==> AuthorizationAt(v, k, a).value < drawn)
    && (forall k :: CredentialAt(v, k).Some? ==> CredentialAt(v, k).value < drawn)
    && (forall k, a, l, b :: AuthorizationAt(v, k, a).Some? && AuthorizationAt(v, k, a) == AuthorizationAt(v, l, b) ==> k == l && a == b)
    && (forall k, l :: CredentialAt(v, k).Some? && CredentialAt(v, k) == CredentialAt(v, l) ==> k == l)
  }

  /** The authorization transaction a save consumed. */
  function Consumed(e: Saved): Option<nat> {
    if e.source.AuthorizationCode? && e.source.handle.Some? then Some(e.source.handle.value.revision) else None
  }

  /** The credential revision a refresh expected. */
  function Expected(e: Saved): Option<nat> {
    if e.source.Refresh? then e.source.expected else None
  }

  /** What a successful save used up was drawn before and is stored nowhere. */
  ghost predicate UsedUp(e: Saved, v: Vault, drawn: nat) {
    && (Consumed(e).Some? ==>
         Consumed(e).value < drawn && forall k, a :: AuthorizationAt(v, k, a) != Consumed(e))
    && (Expected(e).Some? ==> Expected(e).value < drawn && forall k :: CredentialAt(v, k) != Expected(e))
  }

  ghost predicate AllUsedUp(log: seq<Saved>, v: Vault, drawn: nat) {
    forall i :: 0 <= i < |log| ==> UsedUp(log[i], v, drawn)
  }

  /** No two saves used the same authorization transaction, or expected the same revision. */
  ghost predicate UsedOnce(log: seq<Saved>) {
    forall i, j :: 0 <= i < j < |log| ==>
      && (Consumed(log[i]).Some? ==> Consumed(log[j]) != Consumed(log[i]))
      && (Expected(log[i]).Some? ==> Expected(log[j]) != Expected(log[i]))
  }

  function VaultOf(file: Option<File>): Vault {
    if file.Some? then file.value.vault else map[]
  }

  ghost predicate CasInv(s: Store) {
    && RevisionsInv(VaultOf(s.file), s.drawn)
    && AllUsedUp(s.log, VaultOf(s.file), s.drawn)
    && UsedOnce(s.log)
  }

  lemma WithinKeeps(w: Vault, v: Vault, log: seq<Saved>, drawn: nat, later: nat)
    requires Within(w, v) && RevisionsInv(v, drawn) && AllUsedUp(log, v, drawn) && drawn <= later
    ensures RevisionsInv(w, later) && AllUsedUp(log, w, later)
  {
    hide AuthorizationAt, CredentialAt, Consumed, Expected;
  }

  lemma LoadWithin(file: Option<File>, env: Env)
    ensures var (after, loaded) := Load(file, env);
            && Within(VaultOf(after), VaultOf(file))
            && (loaded.Ok? ==> loaded.value.vault == VaultOf(after))
  {
  }

  lemma EditWithin(mac: Mac, c: Connection, op: Op, env: Env, uuid: nat)
    requires !op.SaveCredential? && !op.BeginAuthorization?
    ensures var e := Edit(mac, c, op, env, uuid);
            e.Ok? ==>
              && (e.value.credential == c.credential || e.value.credential == None)
              && forall a :: a in e.value.authorizations ==>
                   a in c.authorizations && e.value.authorizations[a] == c.authorizations[a]
  {
  }

  /** Calls that draw no revision for an authorization or a credential only drop some. */
  lemma MutateWithin(mac: Mac, v: Vault, call: Call, env: Env, uuid: nat)
    requires !call.op.SaveCredential? && !call.op.BeginAuthorization?
    ensures var change := Mutate(mac, v, call, env, uuid);
            change.Ok? && change.value.Some? ==> Within(change.value.value, v)
  {
    hide ConnectionKey, Edit;
    var k := ConnectionKey(call.workspaceId, call.name);
    if k in v {
      EditWithin(mac, v[k], call.op, env, uuid);
    }
  }

  /** Storing a fresh authorization keeps the invariant. */
  lemma BegunKeeps(v: Vault, w: Vault, k: string, a: string, log: seq<Saved>, drawn: nat)
    requires RevisionsInv(v, drawn) && AllUsedUp(log, v, drawn)
    requires forall l, b :: AuthorizationAt(w, l, b) == if l == k && b == a then Some(drawn) else AuthorizationAt(v, l, b)
    requires forall l :: CredentialAt(w, l) == CredentialAt(v, l)
    ensures RevisionsInv(w, drawn + 1) && AllUsedUp(log, w, drawn + 1)
  {
    hide AuthorizationAt, CredentialAt, Consumed, Expected;
  }

  /** So does replacing a credential by a fresh one, whatever authorizations are dropped. */
  lemma SavedKeeps(v: Vault, w: Vault, k: string, log: seq<Saved>, drawn: nat)
    requires RevisionsInv(v, drawn) && AllUsedUp(log, v, drawn)
    requires forall l, b :: AuthorizationAt(w, l, b).Some? ==> AuthorizationAt(w, l, b) == AuthorizationAt(v, l, b)
    requires forall l :: CredentialAt(w, l) == if l == k then Some(drawn) else CredentialAt(v, l)
    ensures RevisionsInv(w, drawn + 1) && AllUsedUp(log, w, drawn + 1)
  {
    hide AuthorizationAt, CredentialAt, Consumed, Expected;
  }

  lemma BeginShape(mac: Mac, v: Vault, call: Call, env: Env, uuid: nat) returns (k: string, a: string)
    requires call.op.BeginAuthorization?
    requires var change := Mutate(mac, v, call, env, uuid); change.Ok? && change.value.Some?
    ensures var w := Mutate(mac, v, call, env, uuid).value.value;
            && (forall l, b :: AuthorizationAt(w, l, b) == if l == k && b == a then Some(uuid) else AuthorizationAt(v, l, b))
            && (forall l :: CredentialAt(w, l) == CredentialAt(v, l))
  {
    hide ConnectionKey;
    k := ConnectionKey(call.workspaceId, call.name);
    a := mac(env.key.value, call.op.authorizationId);
  }

  /** A successful save replaces one credential, and what it consumed or expected was stored
      before and is not stored after. */
  lemma SaveShape(mac: Mac, v: Vault, call: Call, env: Env, uuid: nat) returns (k: string)
    requires call.op.SaveCredential? && RevisionsInv(v, uuid)
    requires var change := Mutate(mac, v, call, env, uuid); change.Ok? && change.value.Some?
    ensures var w := Mutate(mac, v, call, env, uuid).value.value;
            var e := Saved(call.workspaceId, call.name, call.op.source);
            && (forall l, b :: AuthorizationAt(w, l, b).Some? ==> AuthorizationAt(w, l, b) == AuthorizationAt(v, l, b))
            && (forall l :: CredentialAt(w, l) == if l == k then Some(uuid) else CredentialAt(v, l))
            && (Consumed(e).Some? ==> exists l, b :: AuthorizationAt(v, l, b) == Consumed(e))
            && (Expected(e).Some? ==> exists l :: CredentialAt(v, l) == Expected(e))
            && UsedUp(e, w, uuid)
  {
    hide ConnectionKey;
    k := ConnectionKey(call.workspaceId, call.name);
    var w := Mutate(mac, v, call, env, uuid).value.value;
    var e := Saved(call.workspaceId, call.name, call.op.source);
    match call.op.source
    case Refresh(expected) =>
      if expected.Some? {
        assert CredentialAt(v, k) == Expected(e);
      }
    case AuthorizationCode(handle, _) =>
      var stored := mac(env.key.value, handle.value.id);
      assert AuthorizationAt(v, k, stored) == Consumed(e);
  }

  /** A save that used up something stored cannot repeat an earlier save. */
  lemma FirstUse(log: seq<Saved>, e: Saved, v: Vault, drawn: nat)
    requires AllUsedUp(log, v, drawn) && UsedOnce(log)
    requires Consumed(e).Some? ==> exists l, b :: AuthorizationAt(v, l, b) == Consumed(e)
    requires Expected(e).Some? ==> exists l :: CredentialAt(v, l) == Expected(e)
    ensures UsedOnce(log + [e])
  {
    hide AuthorizationAt, CredentialAt, Consumed, Expected;
    forall i | 0 <= i < |log|
      ensures Consumed(log[i]).Some? ==> Consumed(e) != Consumed(log[i])
      ensures Expected(log[i]).Some? ==> Expected(e) != Expected(log[i])
    {
      assert UsedUp(log[i], v, drawn);
    }
  }

  lemma AppendUsed(log: seq<Saved>, e: Saved, w: Vault, drawn: nat)
    requires AllUsedUp(log, w, drawn + 1) && UsedUp(e, w, drawn)
    ensures AllUsedUp(log + [e], w, drawn + 1)
  {
    hide AuthorizationAt, CredentialAt, Consumed, Expected;
  }

  lemma CasStep(mac: Mac, s: Store, call: Call, env: Env)
    requires CasInv(s)
    ensures CasInv(Next(mac, s, call, env))
  {
    hide Mutate, Load, RevisionsInv, AllUsedUp, UsedOnce, Within, AuthorizationAt, CredentialAt, Consumed, Expected, UsedUp, IndexOf;
    var n := s.drawn;
    LoadWithin(s.file, env);
    var (file, loaded) := Load(s.file, env);
    var v := VaultOf(file);
    WithinKeeps(v, VaultOf(s.file), s.log, n, n);
    WithinKeeps(v, VaultOf(s.file), s.log, n, n + 1);
    if loaded.Ok? {
      var change := Mutate(mac, v, call, env, n);
      if change.Ok? && change.value.Some? && env.key.Some? && env.writes {
        CasMutation(mac, v, s.log, call, env, n);
      }
    }
  }

  lemma CasMutation(mac: Mac, v: Vault, log: seq<Saved>, call: Call, env: Env, drawn: nat)
    requires RevisionsInv(v, drawn) && AllUsedUp(log, v, drawn) && UsedOnce(log)
    requires var change := Mutate(mac, v, call, env, drawn); change.Ok? && change.value.Some?
    ensures var w := Mutate(mac, v, call, env, drawn).value.value;
            var log' := if call.op.SaveCredential? then log + [Saved(call.workspaceId, call.name, call.op.source)] else log;
            RevisionsInv(w, drawn + 1) && AllUsedUp(log', w, drawn + 1) && UsedOnce(log')
  {
    hide Mutate, RevisionsInv, AllUsedUp, UsedOnce, Within, AuthorizationAt, CredentialAt, Consumed, Expected, UsedUp;
    var w := Mutate(mac, v, call, env, drawn).value.value;
    if call.op.SaveCredential? {
      var e := Saved(call.workspaceId, call.name, call.op.source);
      var k := SaveShape(mac, v, call, env, drawn);
      SavedKeeps(v, w, k, log, drawn);
      FirstUse(log, e, v, drawn);
      AppendUsed(log, e, w, drawn);
    } else if call.op.BeginAuthorization? {
      var k, a := BeginShape(mac, v, call, env, drawn);
      BegunKeeps(v, w, k, a, log, drawn);
    } else {
      MutateWithin(mac, v, call, env, drawn);
      WithinKeeps(w, v, log, drawn, drawn + 1);
    }
  }

  lemma {:induction false} CasRun(mac: Mac, s: Store, calls: seq<(Call, Env)>)
    requires CasInv(s)
    ensures CasInv(After(mac, s, calls))
    decreases |calls|
  {
    hide CasInv, Next;
    if calls != [] {
      CasStep(mac, s, calls[0].0, calls[0].1);
      CasRun(mac, Next(mac, s, calls[0].0, calls[0].1), calls[1..]);
    }
  }

  /** Over every run of calls, whatever recoveries and write failures it meets: each
      authorization transaction is consumed by at most one successful authorization-code
      save, and of all refresh saves that expect one defined revision at most one succeeds. */
  lemma EachUsedOnce(mac: Mac, calls: seq<(Call, Env)>)
    ensures UsedOnce(After(mac, Store(None, 0, []), calls).log)
  {
    CasRun(mac, Store(None, 0, []), calls);
  }

  /** A begun authorization lets its own save through once: the same handle then finds the
      transaction consumed, and the store keeps the first save's credential. */
  lemma BegunSavesOnce(mac: Mac, s: Store, w: string, n: string, id: string, verifier: string, expiresAt: int,
                       client: Option<Revision>, tokens: string, again: string, env: Env)
    requires s.file.Some? && env.key == Some(s.file.value.sealedUnder) && env.writes
    requires ConnectionKey(w, n) in s.file.value.vault
    ensures var handle := Handle(id, s.drawn);
            var begun := Next(mac, s, Call(w, n, BeginAuthorization(id, verifier, expiresAt, client)), env);
            var save := AuthorizationCode(Some(handle), client);
            var saved := Next(mac, begun, Call(w, n, SaveCredential(save, tokens, None)), env);
            var repeated := Next(mac, saved, Call(w, n, SaveCredential(save, again, None)), env);
            && saved.log == s.log + [Saved(w, n, save)]
            && repeated.log == saved.log && repeated.file == saved.file
            && saved.file.Some? && ConnectionKey(w, n) in saved.file.value.vault
            && saved.file.value.vault[ConnectionKey(w, n)].credential == Some(Credential(tokens, s.drawn + 1, None))
  {
    hide ConnectionKey, IndexOf;
  }
}
