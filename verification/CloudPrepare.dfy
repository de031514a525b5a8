/** fetchProviders and prepareMaterialization of the cloud provider sync
    (apps/server/src/cloud-provider-sync.ts): which answers a pass takes, the env entries each
    provider contributes, who is skipped for lack of credentials, and what the pass is then
    asked to write. `Prepare` takes the providers in the order of their runtime ids. */
module CloudPrepare {
  import opened Strings
  import opened Wrappers
  import opened CloudApply

  /** A provider as the connect endpoint answers it. */
  datatype Provider = Provider(
    id: string,
    openwork: bool,
    envNames: seq<string>,
    apiKeys: seq<(string, string)>,
    apiKey: Option<string>,
    baseUrl: Option<string>,
    config: Config)

  function RuntimeId(p: Provider): string {
    if p.openwork then "openwork" else p.id
  }

  function KeyValue(apiKeys: seq<(string, string)>, name: string): Option<string> {
    if apiKeys == [] then None
    else if apiKeys[0].0 == name then Some(apiKeys[0].1)
    else KeyValue(apiKeys[1..], name)
  }

  /** `envNames.filter(name => keys.includes(name))`, with their values. */
  function NamedPairs(envNames: seq<string>, apiKeys: seq<(string, string)>): seq<(string, string)> {
    if envNames == [] then []
    else
      var value := KeyValue(apiKeys, envNames[0]);
      (if value.Some? then [(envNames[0], value.value)] else []) + NamedPairs(envNames[1..], apiKeys)
  }

  /** `keys.filter(name => !envNames.includes(name))`, with their values. */
  function OtherPairs(envNames: seq<string>, apiKeys: seq<(string, string)>): seq<(string, string)> {
    if apiKeys == [] then []
    else (if apiKeys[0].0 in envNames then [] else [apiKeys[0]]) + OtherPairs(envNames, apiKeys[1..])
  }

  function KeyPairs(p: Provider): seq<(string, string)> {
    NamedPairs(p.envNames, p.apiKeys) + OtherPairs(p.envNames, p.apiKeys) +
    (if p.apiKey.Some? && p.apiKey.value != "" && p.envNames != [] && p.envNames[0] != ""
     then [(p.envNames[0], p.apiKey.value)] else [])
  }

  /** The trimmed API key, or the first entry's value. */
  function PrimaryCredential(p: Provider, entries: seq<EnvEntry>): string {
    var trimmed := if p.apiKey.Some? then Trim(p.apiKey.value) else "";
    if trimmed != "" then trimmed else if entries != [] then entries[0].value else ""
  }

  function OpenworkPairs(p: Provider): seq<(string, string)> {
    var credential := PrimaryCredential(p, UpsertAll([], KeyPairs(p)));
    if !p.openwork || credential == "" then []
    else
      [("OPENWORK_API_KEY", credential)] +
      (if p.baseUrl.Some? && p.baseUrl.value != "" then [("OPENWORK_INFERENCE_BASE_URL", p.baseUrl.value)] else [])
  }

  /** Every upsert providerEnvEntries makes, in order. */
  function ProviderPairs(p: Provider): seq<(string, string)> {
    KeyPairs(p) + OpenworkPairs(p)
  }

  function ProviderEntries(p: Provider): seq<EnvEntry> {
    UpsertAll([], ProviderPairs(p))
  }

  /** A provider that declares env names is skipped when no entry has one of them. */
  predicate Skipped(p: Provider) {
    p.envNames != [] && forall e :: e in ProviderEntries(p) ==> e.key !in p.envNames
  }

  function Materialized(providers: seq<Provider>): seq<Provider> {
    if providers == [] then []
    else
      var last := providers[|providers| - 1];
      Materialized(providers[..|providers| - 1]) + (if Skipped(last) then [] else [last])
  }

  function AsPairs(entries: seq<EnvEntry>): seq<(string, string)> {
    seq(|entries|, i requires 0 <= i < |entries| => (entries[i].key, entries[i].value))
  }

  function AllPairs(providers: seq<Provider>): seq<(string, string)> {
    if providers == [] then []
    else AllPairs(providers[..|providers| - 1]) + AsPairs(ProviderEntries(providers[|providers| - 1]))
  }

  /** desiredProviderMap: of providers with one runtime id, the last. */
  function DesiredMap(providers: seq<Provider>): map<string, Config> {
    if providers == [] then map[]
    else
      var last := providers[|providers| - 1];
      DesiredMap(providers[..|providers| - 1])[RuntimeId(last) := last.config]
  }

  function Prepare(providers: seq<Provider>, fingerprint: string): Prepared {
    var materialized := Materialized(providers);
    Prepared(fingerprint, DesiredMap(materialized), UpsertAll([], AllPairs(materialized)))
  }

  lemma {:induction false} UpsertAllConcat(entries: seq<EnvEntry>, a: seq<(string, string)>, b: seq<(string, string)>)
    ensures UpsertAll(entries, a + b) == UpsertAll(UpsertAll(entries, a), b)
  {
    hide Upsert;
    if b == [] {
      assert a + b == a;
    } else {
      assert (a + b)[..|a + b| - 1] == a + b[..|b| - 1];
      UpsertAllConcat(entries, a, b[..|b| - 1]);
    }
  }

  method UpsertPairs(entries: seq<EnvEntry>, pairs: seq<(string, string)>) returns (r: seq<EnvEntry>)
    ensures r == UpsertAll(entries, pairs)
  {
    r := entries;
    for i := 0 to |pairs|
      invariant r == UpsertAll(entries, pairs[..i])
    {
      r := Upsert(r, pairs[i].0, pairs[i].1);
      assert pairs[..i + 1][..i] == pairs[..i];
    }
    assert pairs[..|pairs|] == pairs;
  }

  /** providerEnvEntries */
  method ProviderEnvEntries(p: Provider) returns (entries: seq<EnvEntry>)
    ensures entries == ProviderEntries(p)
  {
    hide Upsert;
    entries := UpsertPairs([], NamedPairs(p.envNames, p.apiKeys) + OtherPairs(p.envNames, p.apiKeys));
    var own := [];
    if p.apiKey.Some? && p.apiKey.value != "" && p.envNames != [] && p.envNames[0] != "" {
      own := [(p.envNames[0], p.apiKey.value)];
    }
    UpsertAllConcat([], NamedPairs(p.envNames, p.apiKeys) + OtherPairs(p.envNames, p.apiKeys), own);
    entries := UpsertPairs(entries, own);
    assert entries == UpsertAll([], KeyPairs(p));
    UpsertAllConcat([], KeyPairs(p), OpenworkPairs(p));
    entries := UpsertPairs(entries, OpenworkPairs(p));
  }

  /** The loops of prepareMaterialization. */
  method PrepareMaterialization(providers: seq<Provider>, fingerprint: string) returns (prepared: Prepared, skipped: seq<Provider>)
    ensures prepared == Prepare(providers, fingerprint)
    ensures forall p :: p in skipped <==> p in providers && Skipped(p)
  {
    hide Upsert, ProviderEntries, Skipped;
    var materialized: seq<Provider> := [];
    skipped := [];
    for i := 0 to |providers|
      invariant materialized == Materialized(providers[..i])
      invariant forall p :: p in skipped <==> p in providers[..i] && Skipped(p)
    {
      assert providers[..i + 1][..i] == providers[..i];
      assert providers[..i + 1] == providers[..i] + [providers[i]];
      var lacking := IsSkipped(providers[i]);
      if lacking {
        skipped := skipped + [providers[i]];
      } else {
        materialized := materialized + [providers[i]];
      }
    }
    assert providers[..|providers|] == providers;
    var entries: seq<EnvEntry> := [];
    for i := 0 to |materialized|
      invariant entries == UpsertAll([], AllPairs(materialized[..i]))
    {
      assert materialized[..i + 1][..i] == materialized[..i];
      var own := ProviderEnvEntries(materialized[i]);
      UpsertAllConcat([], AllPairs(materialized[..i]), AsPairs(own));
      entries := UpsertPairs(entries, AsPairs(own));
    }
    assert materialized[..|materialized|] == materialized;
    prepared := Prepared(fingerprint, DesiredMap(materialized), entries);
  }

  method IsSkipped(p: Provider) returns (skipped: bool)
    ensures skipped == Skipped(p)
  {
    var entries := ProviderEnvEntries(p);
    skipped := p.envNames != [] && forall e :: e in entries ==> e.key !in p.envNames;
  }

  // What is skipped, and what is written

  lemma {:induction false} UpsertAllUnique(entries: seq<EnvEntry>, pairs: seq<(string, string)>)
    requires UniqueKeys(entries)
    ensures UniqueKeys(UpsertAll(entries, pairs))
  {
    hide Upsert, UniqueKeys;
    if pairs != [] {
      var last := pairs[|pairs| - 1];
      UpsertAllUnique(entries, pairs[..|pairs| - 1]);
      UpsertKeeps(UpsertAll(entries, pairs[..|pairs| - 1]), last.0, last.1);
    }
  }

  /** A provider is skipped exactly when it declares env names and none of them is given a
      value that is not blank. */
  lemma SkippedIff(p: Provider)
    requires "" !in p.envNames
    ensures Skipped(p) <==> p.envNames != [] && forall name :: name in p.envNames ==> LastPair(ProviderPairs(p), name).None?
  {
    hide ProviderPairs, LastPair, UpsertAll;
    var entries := ProviderEntries(p);
    forall name | name in p.envNames ensures (exists e :: e in entries && e.key == name) <==> LastPair(ProviderPairs(p), name).Some? {
      UpsertAllLaw(ProviderPairs(p), name);
      EntryOf(entries, name);
    }
  }

  lemma EntryOf(entries: seq<EnvEntry>, name: string)
    ensures Lookup(entries, name).Some? <==> exists e :: e in entries && e.key == name
  {
    if e :| e in entries && e.key == name {
      var i :| 0 <= i < |entries| && entries[i] == e;
      assert Find(entries, name) <= i;
    }
  }

  /** What is prepared has every env key once, so the laws of a pass apply to it; and the env
      value asked for is that of the last provider, in order, that gives the key one. */
  lemma PreparedLaw(providers: seq<Provider>, fingerprint: string, key: string)
    requires key != ""
    ensures var p := Prepare(providers, fingerprint);
      && UniqueKeys(p.entries)
      && Lookup(p.entries, key) == LastGiven(Materialized(providers), key)
  {
    hide UniqueKeys, Lookup, ProviderEntries, Trim;
    var materialized := Materialized(providers);
    UpsertAllLaw(AllPairs(materialized), key);
    LastOfAll(materialized, key);
  }

  /** The value the last provider that has an entry for a key gives it. */
  function LastGiven(providers: seq<Provider>, key: string): Option<string> {
    if providers == [] then None
    else
      var own := Lookup(ProviderEntries(providers[|providers| - 1]), key);
      if own.Some? then own else LastGiven(providers[..|providers| - 1], key)
  }

  lemma {:induction false} LastOfAll(providers: seq<Provider>, key: string)
    requires key != ""
    ensures LastPair(AllPairs(providers), key) == LastGiven(providers, key)
  {
    hide ProviderEntries, LastPair, Lookup;
    if providers == [] {
      NoPairs(key);
    } else {
      var last := providers[|providers| - 1];
      LastOfAll(providers[..|providers| - 1], key);
      LastConcat(AllPairs(providers[..|providers| - 1]), AsPairs(ProviderEntries(last)), key);
      EntriesTrimmed(ProviderPairs(last));
      assert ProviderEntries(last) == UpsertAll([], ProviderPairs(last)) by {
        EntriesAre(last);
      }
      LastOfEntries(ProviderEntries(last), key);
    }
  }

  lemma NoPairs(key: string)
    ensures LastPair([], key) == None
  {
  }

  lemma EntriesAre(p: Provider)
    ensures ProviderEntries(p) == UpsertAll([], ProviderPairs(p))
  {
  }

  lemma {:induction false} LastConcat(a: seq<(string, string)>, b: seq<(string, string)>, key: string)
    ensures LastPair(a + b, key) == if LastPair(b, key).Some? then LastPair(b, key) else LastPair(a, key)
  {
    if b == [] {
      assert a + b == a;
    } else {
      assert (a + b)[..|a + b| - 1] == a + b[..|b| - 1];
      LastConcat(a, b[..|b| - 1], key);
    }
  }

  /** Entries hold trimmed, non-empty keys and values, each key once. */
  ghost predicate Trimmed(entries: seq<EnvEntry>) {
    UniqueKeys(entries) && forall e :: e in entries ==> e.key != "" && e.value != "" && Trim(e.key) == e.key && Trim(e.value) == e.value
  }

  lemma {:induction false} EntriesTrimmed(pairs: seq<(string, string)>)
    ensures Trimmed(UpsertAll([], pairs))
  {
    hide Trim;
    if pairs != [] {
      var init, last := UpsertAll([], pairs[..|pairs| - 1]), pairs[|pairs| - 1];
      EntriesTrimmed(pairs[..|pairs| - 1]);
      UpsertKeeps(init, last.0, last.1);
      TrimTwice(last.0);
      TrimTwice(last.1);
    }
  }

  /** An env name declared with blanks around it is never met: entries are trimmed. */
  lemma UntrimmedNamesSkip(p: Provider)
    requires p.envNames != [] && forall name :: name in p.envNames ==> Trim(name) != name
    ensures Skipped(p)
  {
    hide Trim;
    EntriesTrimmed(ProviderPairs(p));
  }

  lemma TrimTwice(s: string)
    ensures Trim(Trim(s)) == Trim(s)
  {
  }

  lemma {:induction false} LastOfEntries(entries: seq<EnvEntry>, key: string)
    requires Trimmed(entries)
    ensures LastPair(AsPairs(entries), key) == Lookup(entries, key)
  {
    hide Trim;
    if entries != [] {
      var n := |entries| - 1;
      var init := entries[..n];
      assert AsPairs(entries)[..n] == AsPairs(init);
      LookupLast(entries, key);
      LastOfEntries(init, key);
    }
  }

  // What a pass fetches

  /** A provider in an answer of the cloud, once its fields are read; `complete` when every
      other field parseProvider requires is there. */
  datatype Answer = Answer(complete: bool, provider: Provider)

  /** parseProvider */
  function ParseProvider(a: Answer): Option<Provider> {
    if a.complete && IsCloudId(a.provider.id) then Some(a.provider) else None
  }

  /** parseProviderConnection */
  function ParseConnection(a: Answer, expectedId: string): Option<Provider> {
    var p := ParseProvider(a);
    if p.Some? && p.value.id == expectedId then p else None
  }

  /** fetchProviders: the list, then a connection for each of its providers, in its order.
      One answer that does not parse fails the whole pass. */
  function Fetched(list: seq<Answer>, connections: seq<Answer>): Option<seq<Provider>> {
    if list == [] then Some([])
    else if connections == [] then None
    else
      var listed := ParseProvider(list[0]);
      if listed.None? then None
      else
        var connected, rest := ParseConnection(connections[0], listed.value.id), Fetched(list[1..], connections[1..]);
        if connected.None? || rest.None? then None else Some([connected.value] + rest.value)
  }

  /** What is around a pass: the answers it gets, how its sort orders providers, the
      fingerprint of its materialization, and where it throws. */
  datatype Round = Round(
    list: seq<Answer>, connections: seq<Answer>, order: seq<Provider> -> seq<Provider>, fingerprint: string, fault: Fault)

  /** Sorting loses and invents nothing. */
  ghost predicate Sorts(order: seq<Provider> -> seq<Provider>) {
    forall providers, p :: p in order(providers) <==> p in providers
  }

  /** The events of a run of passes: a pass whose answers do not parse writes nothing. */
  function Passes(rounds: seq<Round>): seq<Event> {
    if rounds == [] then []
    else
      var fetched := Fetched(rounds[0].list, rounds[0].connections);
      (if fetched.None? then []
       else [EPass(Prepare(rounds[0].order(fetched.value), rounds[0].fingerprint), rounds[0].fault)]) +
      Passes(rounds[1..])
  }

  lemma {:induction false} FetchedAreCloud(list: seq<Answer>, connections: seq<Answer>)
    requires Fetched(list, connections).Some?
    ensures var providers := Fetched(list, connections).value;
            |providers| == |list| &&
            forall i :: 0 <= i < |list| ==> IsCloudId(providers[i].id) && providers[i].id == list[i].provider.id
  {
    hide IsCloudId;
    if list != [] {
      FetchedAreCloud(list[1..], connections[1..]);
    }
  }

  lemma OpenworkManaged()
    ensures IsManagedKey("openwork")
  {
    assert !IsSpace("openwork"[0]) && !IsSpace("openwork"[|"openwork"| - 1]);
  }

  lemma {:induction false} MaterializedFrom(providers: seq<Provider>)
    ensures forall p :: p in Materialized(providers) ==> p in providers
  {
    hide Skipped;
    if providers != [] {
      MaterializedFrom(providers[..|providers| - 1]);
    }
  }

  lemma {:induction false} DesiredManaged(providers: seq<Provider>)
    requires forall p :: p in providers ==> IsCloudId(p.id)
    ensures forall id :: id in DesiredMap(providers) ==> IsManagedKey(id)
  {
    hide IsCloudId, Trim;
    OpenworkManaged();
    if providers != [] {
      DesiredManaged(providers[..|providers| - 1]);
    }
  }

  /** Whatever the cloud answers, what a pass is asked to write has each env key once, and
      every provider of it under a managed key. */
  lemma FetchedManaged(round: Round)
    requires Sorts(round.order) && Fetched(round.list, round.connections).Some?
    ensures var p := Prepare(round.order(Fetched(round.list, round.connections).value), round.fingerprint);
            AllManaged(p) && UniqueKeys(p.entries)
  {
    var providers := round.order(Fetched(round.list, round.connections).value);
    FetchedAreCloud(round.list, round.connections);
    MaterializedFrom(providers);
    DesiredManaged(Materialized(providers));
    PreparedLaw(providers, round.fingerprint, "k");
  }

  /** So an error-free pass makes the managed part of the provider map the desired map, and
      repeating it writes nothing and reports no change. */
  lemma FetchedPassSettles(s: Sync, round: Round)
    requires Sorts(round.order) && Fetched(round.list, round.connections).Some?
    ensures var p := Prepare(round.order(Fetched(round.list, round.connections).value), round.fingerprint);
            var q := Pass(s, p, NoFault).0;
            && ManagedMap(q.providers) == p.desired
            && Pass(q, p, NoFault) == (q, Some(Detail(false, [], {}, false)))
  {
    hide Pass, ManagedMap, Prepare, AllManaged, UniqueKeys;
    FetchedManaged(round);
    var p := Prepare(round.order(Fetched(round.list, round.connections).value), round.fingerprint);
    PassReachesDesired(s, p);
    SecondPassNoop(s, p);
  }

  lemma {:induction false} PassesManaged(rounds: seq<Round>)
    requires forall r :: r in rounds ==> Sorts(r.order)
    ensures Session(Passes(rounds)) && ManagedSession(Passes(rounds))
  {
    hide Prepare, AllManaged, UniqueKeys, Fetched, Sorts;
    if rounds != [] {
      PassesManaged(rounds[1..]);
      if Fetched(rounds[0].list, rounds[0].connections).Some? {
        FetchedManaged(rounds[0]);
      }
    }
  }

  /** Whatever the cloud answered in a session and wherever its passes failed, signing out
      with an error-free sweep leaves nothing the cloud wrote and loses no provider that is
      not the cloud's. */
  lemma SignedOutClean(s0: Sync, rounds: seq<Round>)
    requires s0.owned == {} && s0.managed == {} && forall r :: r in rounds ==> Sorts(r.order)
    ensures var s := Sweep(After(s0, Passes(rounds)), NoFault);
            && (forall id :: id in s.providers ==> id in s0.providers && s.providers[id] == s0.providers[id])
            && (forall id :: id in s0.providers && !IsManagedKey(id) ==> id in s.providers)
            && (forall k :: k in s.env ==> k in s0.env && s.env[k] == s0.env[k])
  {
    hide Passes, After, Sweep, IsManagedKey;
    PassesManaged(rounds);
    SignOutLeavesNothing(s0, Passes(rounds));
  }
}
