/** The writes of CloudProviderSync, in the order its apply and sweep make them. */
module CloudApplyCode {
  import opened Wrappers
  import opened CloudApply

  class CloudProviderWriter {
    var providers: map<string, Config>
    var env: map<string, string>
    var ownedEnvKeys: set<string>
    var managedProviderIds: set<string>
    var fingerprint: Option<string>

    ghost function State(): Sync
      reads this
    {
      Sync(providers, env, ownedEnvKeys, managedProviderIds, fingerprint)
    }

    constructor (providers: map<string, Config>, env: map<string, string>)
      ensures State() == Sync(providers, env, {}, {}, None)
    {
      this.providers, this.env := providers, env;
      ownedEnvKeys, managedProviderIds, fingerprint := {}, {}, None;
    }

    /** env.upsertMany of what the store does not hold already. */
    method UpsertMissing(entries: seq<EnvEntry>) returns (upserts: seq<EnvEntry>)
      modifies this`env
      ensures upserts == Missing(old(env), entries) && env == Upserted(old(env), upserts)
    {
      var stored := env;
      upserts := [];
      for i := 0 to |entries|
        invariant upserts == Missing(stored, entries[..i])
        invariant env == Upserted(stored, upserts)
      {
        assert entries[..i + 1][..i] == entries[..i];
        if !(entries[i].key in stored && stored[entries[i].key] == entries[i].value) {
          assert (upserts + [entries[i]])[..|upserts|] == upserts;
          upserts := upserts + [entries[i]];
          env := env[entries[i].key := entries[i].value];
        }
      }
      assert entries[..|entries|] == entries;
    }

    /** The loop over the owned keys that are no longer desired. */
    method DeleteOwned(keys: set<string>)
      requires keys <= ownedEnvKeys
      modifies this`env, this`ownedEnvKeys
      ensures env == old(env) - keys && ownedEnvKeys == old(ownedEnvKeys) - keys
    {
      var rest := keys;
      while rest != {}
        invariant rest <= keys
        invariant env == old(env) - (keys - rest) && ownedEnvKeys == old(ownedEnvKeys) - (keys - rest)
      {
        var key :| key in rest;
        env := env - {key};
        ownedEnvKeys := ownedEnvKeys - {key};
        rest := rest - {key};
      }
    }

    /** The patch of a changed provider map: nulls first, then the desired configurations. */
    method WriteProviders(desired: map<string, Config>)
      modifies this`providers
      ensures providers == Merge(old(providers), desired, NullKeys(old(State()), Prepared("", desired, [])))
    {
      var nulls := set id | id in ManagedMap(providers) && id !in desired;
      providers := providers - nulls;
      providers := providers + desired;
    }

    /** apply, and runPass up to its status. */
    method Apply(p: Prepared, fault: Fault) returns (detail: Option<Detail>)
      modifies this
      ensures (State(), detail) == Pass(old(State()), p, fault)
    {
      if fault.AtProviders? {
        return None;
      }
      var providerStateChanged := ManagedMap(providers) != p.desired;
      if providerStateChanged {
        WriteProviders(p.desired);
      }
      managedProviderIds := managedProviderIds + p.desired.Keys;
      if fault.AtEnv? {
        return None;
      }
      var upserts := UpsertMissing(p.entries);
      var desiredEnvKeys := Keys(p.entries);
      var deletes := ownedEnvKeys - desiredEnvKeys;
      ownedEnvKeys := ownedEnvKeys + desiredEnvKeys;
      if fault.AtDelete? {
        DeleteOwned(deletes * fault.deleted);
        return None;
      }
      DeleteOwned(deletes);
      if fault.Later? {
        return None;
      }
      managedProviderIds := p.desired.Keys;
      detail := Some(Detail(providerStateChanged, upserts, deletes, fingerprint != Some(p.fingerprint)));
      fingerprint := Some(p.fingerprint);
    }

    /** sweep, with the `finally` of clearSession. */
    method SweepAll(fault: Fault)
      modifies this
      ensures State() == Sweep(old(State()), fault)
    {
      if !(fault.AtProviders? && managedProviderIds != {}) {
        providers := providers - managedProviderIds;
        if fault.AtDelete? {
          DeleteOwned(ownedEnvKeys * fault.deleted);
        } else if !fault.AtEnv? {
          DeleteOwned(ownedEnvKeys);
        }
      }
      fingerprint := None;
      ownedEnvKeys := {};
      managedProviderIds := {};
    }
  }
}
