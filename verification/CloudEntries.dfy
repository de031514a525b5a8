/** What a pass is asked to write, provider by provider: which configuration each runtime id
    gets, and which env key gets which credential. */
module CloudEntries {
  import opened Strings
  import opened Wrappers
  import opened CloudApply
  import opened CloudPrepare

  // ---------------------------------------------------------- configurations

  /** The provider is written under this id. */
  predicate Under(p: Provider, id: string) {
    !Skipped(p) && id == if p.openwork then "openwork" else p.id
  }

  /** Provider `i` is the last, in order, that is written under this id. */
  ghost predicate LastUnder(providers: seq<Provider>, i: nat, id: string)
    requires i < |providers|
  {
    Under(providers[i], id) && forall j :: i < j < |providers| ==> !Under(providers[j], id)
  }

  lemma {:induction false} LastDesired(providers: seq<Provider>, id: string)
    ensures var desired := DesiredMap(Materialized(providers));
      && (id in desired <==> exists i :: 0 <= i < |providers| && LastUnder(providers, i, id))
      && (forall i :: 0 <= i < |providers| && LastUnder(providers, i, id) ==> desired[id] == providers[i].config)
  {
    hide Skipped, DesiredMap, Materialized, LastUnder;
    if providers == [] {
      NothingDesired();
    } else {
      var n := |providers| - 1;
      var init := providers[..n];
      LastDesired(init, id);
      DesiredStep(providers);
      if Under(providers[n], id) {
        LastIs(providers, id);
        assert LastUnder(providers, n, id);
      } else {
        LastStays(providers, id);
      }
    }
  }

  lemma NothingDesired()
    ensures DesiredMap(Materialized([])) == map[]
  {
  }

  lemma DesiredStep(providers: seq<Provider>)
    requires providers != []
    ensures var last, before := providers[|providers| - 1], DesiredMap(Materialized(providers[..|providers| - 1]));
      DesiredMap(Materialized(providers)) == if Skipped(last) then before else before[RuntimeId(last) := last.config]
  {
    hide Skipped;
    var init := Materialized(providers[..|providers| - 1]);
    var last := providers[|providers| - 1];
    if Skipped(last) {
      assert Materialized(providers) == init;
    } else {
      assert Materialized(providers) == init + [last] && (init + [last])[..|init|] == init;
    }
  }

  lemma LastIs(providers: seq<Provider>, id: string)
    requires providers != [] && Under(providers[|providers| - 1], id)
    ensures forall i :: 0 <= i < |providers| ==> (LastUnder(providers, i, id) <==> i == |providers| - 1)
  {
    hide Under;
  }

  lemma LastStays(providers: seq<Provider>, id: string)
    requires providers != [] && !Under(providers[|providers| - 1], id)
    ensures var n := |providers| - 1;
      forall i :: 0 <= i < |providers| ==> (LastUnder(providers, i, id) <==> i < n && LastUnder(providers[..n], i, id))
  {
    hide Under;
  }

  /** A pass is asked to write a runtime id exactly when some provider that is not skipped has
      it, and then with the configuration of the last such provider. */
  lemma DesiredExactly(providers: seq<Provider>, fingerprint: string, id: string)
    ensures Prepare(providers, fingerprint).fingerprint == fingerprint
    ensures var desired := Prepare(providers, fingerprint).desired;
      && (id in desired <==> exists p :: p in providers && Under(p, id))
      && (forall i :: 0 <= i < |providers| && LastUnder(providers, i, id) ==> id in desired && desired[id] == providers[i].config)
  {
    hide Under, DesiredMap, Materialized;
    LastDesired(providers, id);
    if p :| p in providers && Under(p, id) {
      var i :| 0 <= i < |providers| && providers[i] == p;
      SomeLast(providers, i, id);
    }
  }

  lemma {:induction false} SomeLast(providers: seq<Provider>, i: nat, id: string)
    requires i < |providers| && Under(providers[i], id)
    ensures exists k :: 0 <= k < |providers| && LastUnder(providers, k, id)
    decreases |providers| - i
  {
    hide Under;
    if j :| i < j < |providers| && Under(providers[j], id) {
      SomeLast(providers, j, id);
    } else {
      assert LastUnder(providers, i, id);
    }
  }

  // ------------------------------------------------------------- API keys

  /** The record of API keys names each once. */
  ghost predicate Named(apiKeys: seq<(string, string)>) {
    forall i, j :: 0 <= i < j < |apiKeys| ==> apiKeys[i].0 != apiKeys[j].0
  }

  predicate Fits(pair: (string, string), key: string) {
    Trim(pair.0) == key && Trim(pair.1) != ""
  }

  /** API key `i` has the name that is declared in place `n`. */
  predicate Declares(p: Provider, n: int, i: int) {
    0 <= n < |p.envNames| && 0 <= i < |p.apiKeys| && p.apiKeys[i].0 == p.envNames[n]
  }

  /** API key `i` has a name that is not declared. */
  predicate Undeclared(p: Provider, i: int) {
    0 <= i < |p.apiKeys| && p.apiKeys[i].0 !in p.envNames
  }

  /** No API key whose name is declared in place `n` or later gives the key a value. */
  ghost predicate NoneDeclared(p: Provider, n: nat, key: string) {
    forall m, i :: n <= m && Declares(p, m, i) ==> !Fits(p.apiKeys[i], key)
  }

  /** ... and the one that is declared last does. */
  ghost predicate LastDeclared(p: Provider, n: nat, key: string, value: string) {
    exists m, i :: n <= m && Declares(p, m, i) && Fits(p.apiKeys[i], key) && Trim(p.apiKeys[i].1) == value &&
      NoneDeclared(p, m + 1, key)
  }

  ghost predicate NoneOther(p: Provider, n: nat, key: string) {
    forall i :: n <= i && Undeclared(p, i) ==> !Fits(p.apiKeys[i], key)
  }

  ghost predicate LastOther(p: Provider, n: nat, key: string, value: string) {
    exists i :: n <= i && Undeclared(p, i) && Fits(p.apiKeys[i], key) && Trim(p.apiKeys[i].1) == value && NoneOther(p, i + 1, key)
  }

  /** What the API keys give a key: the last that is not declared, or else the one declared last. */
  ghost predicate KeysGive(p: Provider, key: string, value: Option<string>) {
    match value
    case None => NoneDeclared(p, 0, key) && NoneOther(p, 0, key)
    case Some(v) => LastOther(p, 0, key, v) || (NoneOther(p, 0, key) && LastDeclared(p, 0, key, v))
  }

  lemma LastOne(pair: (string, string), key: string)
    ensures LastPair([pair], key) == if Fits(pair, key) then Some(Trim(pair.1)) else None
  {
    assert [pair][..0] == [] && LastPair([], key) == None;
    hide Trim;
  }

  lemma {:induction false} KeyValueFinds(apiKeys: seq<(string, string)>, name: string)
    requires Named(apiKeys)
    ensures KeyValue(apiKeys, name).None? ==> forall i :: 0 <= i < |apiKeys| ==> apiKeys[i].0 != name
    ensures KeyValue(apiKeys, name).Some? ==>
      exists i :: 0 <= i < |apiKeys| && apiKeys[i] == (name, KeyValue(apiKeys, name).value)
  {
    if apiKeys != [] && apiKeys[0].0 != name {
      KeyValueFinds(apiKeys[1..], name);
      if KeyValue(apiKeys, name).Some? {
        var i :| 0 <= i < |apiKeys[1..]| && apiKeys[1..][i] == (name, KeyValue(apiKeys, name).value);
        assert apiKeys[i + 1] == (name, KeyValue(apiKeys, name).value);
      } else {
        assert forall i :: 1 <= i < |apiKeys| ==> apiKeys[i] == apiKeys[1..][i - 1];
      }
    }
  }

  /** The pairs of the names declared in place `n` or later. */
  function NamedFrom(p: Provider, n: nat): seq<(string, string)>
    requires n <= |p.envNames|
  {
    NamedPairs(p.envNames[n..], p.apiKeys)
  }

  function OwnPairs(p: Provider, n: nat): seq<(string, string)>
    requires n < |p.envNames|
  {
    var value := KeyValue(p.apiKeys, p.envNames[n]);
    if value.Some? then [(p.envNames[n], value.value)] else []
  }

  lemma NamedStep(p: Provider, n: nat)
    requires n <= |p.envNames|
    ensures NamedFrom(p, n) == if n < |p.envNames| then OwnPairs(p, n) + NamedFrom(p, n + 1) else []
  {
    if n < |p.envNames| { assert p.envNames[n..][1..] == p.envNames[n + 1..]; }
  }

  lemma OwnPair(p: Provider, n: nat, key: string)
    requires Named(p.apiKeys) && n < |p.envNames|
    ensures var own := LastPair(OwnPairs(p, n), key);
      && (own.None? ==> forall i :: Declares(p, n, i) ==> !Fits(p.apiKeys[i], key))
      && (own.Some? ==> exists i :: Declares(p, n, i) && Fits(p.apiKeys[i], key) && Trim(p.apiKeys[i].1) == own.value)
  {
    KeyValueFinds(p.apiKeys, p.envNames[n]);
    hide LastPair, Trim, KeyValue;
    if OwnPairs(p, n) == [] {
      NoPairs(key);
    } else {
      LastOne(OwnPairs(p, n)[0], key);
      var i :| 0 <= i < |p.apiKeys| && p.apiKeys[i] == OwnPairs(p, n)[0];
      assert Declares(p, n, i);
    }
  }

  lemma {:induction false} DeclaredLaw(p: Provider, n: nat, key: string)
    requires Named(p.apiKeys) && n <= |p.envNames|
    ensures var value := LastPair(NamedFrom(p, n), key);
      if value.None? then NoneDeclared(p, n, key) else LastDeclared(p, n, key, value.value)
    decreases |p.envNames| - n
  {
    NamedStep(p, n);
    hide LastPair, Trim, NamedFrom, OwnPairs;
    if n == |p.envNames| {
      NoPairs(key);
    } else {
      DeclaredLaw(p, n + 1, key);
      OwnPair(p, n, key);
      LastConcat(OwnPairs(p, n), NamedFrom(p, n + 1), key);
      hide Fits;
    }
  }

  lemma OthersStep(p: Provider, n: nat)
    requires n <= |p.apiKeys|
    ensures OtherPairs(p.envNames, p.apiKeys[n..]) ==
      if n < |p.apiKeys| then (if Undeclared(p, n) then [p.apiKeys[n]] else []) + OtherPairs(p.envNames, p.apiKeys[n + 1..])
      else []
  {
    if n < |p.apiKeys| { assert p.apiKeys[n..][1..] == p.apiKeys[n + 1..]; }
  }

  lemma {:induction false} OtherLaw(p: Provider, n: nat, key: string)
    requires n <= |p.apiKeys|
    ensures var value := LastPair(OtherPairs(p.envNames, p.apiKeys[n..]), key);
      if value.None? then NoneOther(p, n, key) else LastOther(p, n, key, value.value)
    decreases |p.apiKeys| - n
  {
    OthersStep(p, n);
    NoPairs(key);
    hide LastPair, Trim, OtherPairs, Fits;
    if n < |p.apiKeys| {
      OtherLaw(p, n + 1, key);
      LastOne(p.apiKeys[n], key);
      var own, rest := if Undeclared(p, n) then [p.apiKeys[n]] else [], OtherPairs(p.envNames, p.apiKeys[n + 1..]);
      LastConcat(own, rest, key);
      assert own == [] ==> LastPair(own, key).None?;
      if LastPair(rest, key).None? {
        NextOther(p, n, key);
      } else {
        LaterOther(p, n, key, LastPair(rest, key).value);
      }
    }
  }

  lemma NextOther(p: Provider, n: nat, key: string)
    requires n < |p.apiKeys| && NoneOther(p, n + 1, key)
    ensures if Undeclared(p, n) && Fits(p.apiKeys[n], key) then LastOther(p, n, key, Trim(p.apiKeys[n].1)) else NoneOther(p, n, key)
  {
    hide Fits, Trim;
  }

  lemma LaterOther(p: Provider, n: nat, key: string, value: string)
    requires LastOther(p, n + 1, key, value)
    ensures LastOther(p, n, key, value)
  {
    hide Fits, Trim, NoneOther;
  }

  function Ordered(p: Provider): seq<(string, string)> {
    NamedPairs(p.envNames, p.apiKeys) + OtherPairs(p.envNames, p.apiKeys)
  }

  lemma OrderedLaw(p: Provider, key: string)
    requires Named(p.apiKeys)
    ensures KeysGive(p, key, LastPair(Ordered(p), key))
  {
    assert p.envNames[0..] == p.envNames && p.apiKeys[0..] == p.apiKeys;
    DeclaredLaw(p, 0, key);
    OtherLaw(p, 0, key);
    LastConcat(NamedPairs(p.envNames, p.apiKeys), OtherPairs(p.envNames, p.apiKeys), key);
    hide LastPair, NamedPairs, OtherPairs, NoneDeclared, LastDeclared, NoneOther, LastOther;
  }

  // ---------------------------------------------------------- the credential

  function Blankless(o: Option<string>): string {
    if o.Some? then Trim(o.value) else ""
  }

  /** The single API key goes to the first declared name. */
  predicate Single(p: Provider, key: string) {
    Blankless(p.apiKey) != "" && p.envNames != [] && Trim(p.envNames[0]) == key
  }

  lemma SinglePair(p: Provider, key: string)
    requires key != ""
    ensures LastPair(KeyPairs(p), key) == if Single(p, key) then Some(Blankless(p.apiKey)) else LastPair(Ordered(p), key)
  {
    var own := if p.apiKey.Some? && p.apiKey.value != "" && p.envNames != [] && p.envNames[0] != ""
               then [(p.envNames[0], p.apiKey.value)] else [];
    LastConcat(Ordered(p), own, key);
    NoPairs(key);
    if own != [] { LastOne(own[0], key); }
    TrimEmpty();
    hide LastPair, Trim, NamedPairs, OtherPairs;
  }

  lemma TrimEmpty()
    ensures Trim("") == ""
  {
  }

  predicate Valued(pair: (string, string)) {
    Trim(pair.0) != "" && Trim(pair.1) != ""
  }

  /** The key of the first pair that makes an entry. */
  function FirstValued(pairs: seq<(string, string)>): Option<string> {
    if pairs == [] then None
    else if Valued(pairs[0]) then Some(Trim(pairs[0].0))
    else FirstValued(pairs[1..])
  }

  lemma {:induction false} FirstConcat(a: seq<(string, string)>, b: seq<(string, string)>)
    ensures FirstValued(a + b) == if FirstValued(a).Some? then FirstValued(a) else FirstValued(b)
  {
    hide Valued, Trim;
    if a == [] {
      assert a + b == b;
    } else {
      assert (a + b)[1..] == a[1..] + b;
      FirstConcat(a[1..], b);
    }
  }

  lemma FirstOne(pair: (string, string))
    ensures FirstValued([pair]) == if Valued(pair) then Some(Trim(pair.0)) else None
  {
    assert [pair][1..] == [] && FirstValued([]) == None;
    hide Valued, Trim;
  }

  /** Entries keep the place they were made in. */
  lemma {:induction false} FirstEntry(pairs: seq<(string, string)>)
    ensures var entries := UpsertAll([], pairs);
      if FirstValued(pairs).None? then entries == [] else entries != [] && entries[0].key == FirstValued(pairs).value
  {
    if pairs != [] {
      var n := |pairs| - 1;
      FirstEntry(pairs[..n]);
      assert pairs == pairs[..n] + [pairs[n]];
      FirstConcat(pairs[..n], [pairs[n]]);
      FirstOne(pairs[n]);
      hide Trim, FirstValued;
      UpsertFirst(UpsertAll([], pairs[..n]), pairs[n]);
    }
  }

  lemma UpsertFirst(entries: seq<EnvEntry>, pair: (string, string))
    ensures var r := Upsert(entries, pair.0, pair.1);
      if entries != [] then r != [] && r[0].key == entries[0].key
      else if Valued(pair) then r != [] && r[0].key == Trim(pair.0) else r == []
  {
    hide Trim;
  }

  /** The first name declared in place `n` or later that has a value has this key. */
  ghost predicate FirstDeclared(p: Provider, n: nat, key: Option<string>) {
    match key
    case None => forall m, i :: n <= m && Declares(p, m, i) ==> !Valued(p.apiKeys[i])
    case Some(k) =>
      exists m, i ::
        && n <= m && Declares(p, m, i) && Valued(p.apiKeys[i]) && Trim(p.apiKeys[i].0) == k
        && forall l, j :: n <= l < m && Declares(p, l, j) ==> !Valued(p.apiKeys[j])
  }

  ghost predicate FirstOther(p: Provider, n: nat, key: Option<string>) {
    match key
    case None => forall i :: n <= i && Undeclared(p, i) ==> !Valued(p.apiKeys[i])
    case Some(k) =>
      exists i ::
        && n <= i && Undeclared(p, i) && Valued(p.apiKeys[i]) && Trim(p.apiKeys[i].0) == k
        && forall j :: n <= j < i && Undeclared(p, j) ==> !Valued(p.apiKeys[j])
  }

  lemma OwnFirst(p: Provider, n: nat)
    requires Named(p.apiKeys) && n < |p.envNames|
    ensures var own := FirstValued(OwnPairs(p, n));
      && (own.None? ==> forall i :: Declares(p, n, i) ==> !Valued(p.apiKeys[i]))
      && (own.Some? ==> exists i :: Declares(p, n, i) && Valued(p.apiKeys[i]) && Trim(p.apiKeys[i].0) == own.value)
  {
    KeyValueFinds(p.apiKeys, p.envNames[n]);
    hide FirstValued, Trim, KeyValue, Valued;
    if OwnPairs(p, n) != [] {
      FirstOne(OwnPairs(p, n)[0]);
      var i :| 0 <= i < |p.apiKeys| && p.apiKeys[i] == OwnPairs(p, n)[0];
      assert Declares(p, n, i);
    }
  }

  lemma {:induction false} FirstDeclaredLaw(p: Provider, n: nat)
    requires Named(p.apiKeys) && n <= |p.envNames|
    ensures FirstDeclared(p, n, FirstValued(NamedFrom(p, n)))
    decreases |p.envNames| - n
  {
    NamedStep(p, n);
    hide Trim, NamedFrom, OwnPairs, Valued;
    if n < |p.envNames| {
      FirstDeclaredLaw(p, n + 1);
      OwnFirst(p, n);
      FirstConcat(OwnPairs(p, n), NamedFrom(p, n + 1));
      hide FirstValued;
    }
  }

  lemma {:induction false} FirstOtherLaw(p: Provider, n: nat)
    requires n <= |p.apiKeys|
    ensures FirstOther(p, n, FirstValued(OtherPairs(p.envNames, p.apiKeys[n..])))
    decreases |p.apiKeys| - n
  {
    OthersStep(p, n);
    hide Trim, OtherPairs, Valued;
    if n < |p.apiKeys| {
      FirstOtherLaw(p, n + 1);
      FirstOne(p.apiKeys[n]);
      FirstConcat(if Undeclared(p, n) then [p.apiKeys[n]] else [], OtherPairs(p.envNames, p.apiKeys[n + 1..]));
      hide FirstValued;
    }
  }

  /** The key of the first entry: of the first declared name that has a value, or else of the
      first other API key that does. */
  ghost predicate FirstKey(p: Provider, key: Option<string>) {
    if FirstDeclared(p, 0, None) then FirstOther(p, 0, key) else FirstDeclared(p, 0, key)
  }

  lemma FirstKeyLaw(p: Provider)
    requires Named(p.apiKeys)
    ensures FirstKey(p, FirstValued(Ordered(p)))
  {
    assert p.envNames[0..] == p.envNames && p.apiKeys[0..] == p.apiKeys;
    FirstDeclaredLaw(p, 0);
    FirstOtherLaw(p, 0);
    FirstConcat(NamedPairs(p.envNames, p.apiKeys), OtherPairs(p.envNames, p.apiKeys));
    hide FirstValued, NamedPairs, OtherPairs, Valued, Trim;
  }

  /** The credential of a provider: its single API key, or else the value of its first entry,
      or else none. */
  ghost predicate IsCredential(p: Provider, credential: string) {
    if Blankless(p.apiKey) != "" then credential == Blankless(p.apiKey)
    else
      || (credential == "" && FirstKey(p, None))
      || (exists key :: key != "" && FirstKey(p, Some(key)) && KeysGive(p, key, Some(credential)))
  }

  function CredentialOf(p: Provider): string {
    PrimaryCredential(p, UpsertAll([], KeyPairs(p)))
  }

  lemma {:induction false} FirstNotBlank(pairs: seq<(string, string)>)
    ensures FirstValued(pairs) != Some("")
  {
    hide Trim;
    if pairs != [] { FirstNotBlank(pairs[1..]); }
  }

  lemma CredentialLaw(p: Provider)
    requires Named(p.apiKeys)
    ensures IsCredential(p, CredentialOf(p))
  {
    if Blankless(p.apiKey) == "" {
      var entries := UpsertAll([], KeyPairs(p));
      FirstEntry(KeyPairs(p));
      FirstKeys(p);
      FirstKeyLaw(p);
      FirstNotBlank(Ordered(p));
      hide KeyPairs, Ordered, FirstValued, FirstKey, UpsertAll, Trim, KeysGive;
      if entries != [] {
        var key := entries[0].key;
        UpsertAllLaw(KeyPairs(p), key);
        SinglePair(p, key);
        OrderedLaw(p, key);
        FirstUnique(entries);
      }
    }
  }

  lemma FirstUnique(entries: seq<EnvEntry>)
    requires entries != []
    ensures Lookup(entries, entries[0].key) == Some(entries[0].value)
  {
  }

  lemma FirstKeys(p: Provider)
    requires Blankless(p.apiKey) == ""
    ensures FirstValued(KeyPairs(p)) == FirstValued(Ordered(p))
  {
    var own := if p.apiKey.Some? && p.apiKey.value != "" && p.envNames != [] && p.envNames[0] != ""
               then [(p.envNames[0], p.apiKey.value)] else [];
    FirstConcat(Ordered(p), own);
    if own != [] { FirstOne(own[0]); }
    hide FirstValued, Trim, NamedPairs, OtherPairs;
  }

  // --------------------------------------------------------------- one entry

  const API_KEY := "OPENWORK_API_KEY"
  const BASE_URL := "OPENWORK_INFERENCE_BASE_URL"

  /** What a provider's entries say of a key. An OpenWork provider that has a credential
      gives it, and its base URL, under names of their own; the single API key goes to the
      first declared name; and the API keys give the rest. */
  ghost predicate EntrySays(p: Provider, key: string, value: Option<string>, credential: string) {
    if p.openwork && credential != "" && key == BASE_URL && Blankless(p.baseUrl) != "" then value == Some(Blankless(p.baseUrl))
    else if p.openwork && credential != "" && key == API_KEY then value == Some(credential)
    else if Single(p, key) then value == Some(Blankless(p.apiKey))
    else KeysGive(p, key, value)
  }

  lemma OpenworkPair(p: Provider, key: string)
    ensures var credential := CredentialOf(p);
      LastPair(OpenworkPairs(p), key) ==
        if p.openwork && credential != "" && key == BASE_URL && Blankless(p.baseUrl) != "" then Some(Blankless(p.baseUrl))
        else if p.openwork && credential != "" && key == API_KEY then Some(credential)
        else None
  {
    var credential := CredentialOf(p);
    CredentialTrimmed(p);
    NoPairs(key);
    NamesTrimmed();
    LastOne((API_KEY, credential), key);
    if p.baseUrl.Some? { LastOne((BASE_URL, p.baseUrl.value), key); }
    TrimEmpty();
    hide LastPair, Trim, PrimaryCredential, KeyPairs;
    if p.openwork && credential != "" {
      LastConcat([(API_KEY, credential)],
                 if p.baseUrl.Some? && p.baseUrl.value != "" then [(BASE_URL, p.baseUrl.value)] else [], key);
    }
  }

  lemma NamesTrimmed()
    ensures Trim(API_KEY) == API_KEY && Trim(BASE_URL) == BASE_URL && API_KEY != BASE_URL
  {
    assert |API_KEY| != |BASE_URL|;
    assert !IsSpace(API_KEY[0]) && !IsSpace(API_KEY[|API_KEY| - 1]);
    assert !IsSpace(BASE_URL[0]) && !IsSpace(BASE_URL[|BASE_URL| - 1]);
  }

  lemma CredentialTrimmed(p: Provider)
    ensures Trim(CredentialOf(p)) == CredentialOf(p)
  {
    EntriesTrimmed(KeyPairs(p));
    if p.apiKey.Some? { TrimTwice(p.apiKey.value); }
    TrimEmpty();
    hide Trim, KeyPairs, UpsertAll;
  }

  /** The entries of every provider, key by key. */
  lemma EntryExactly(p: Provider, key: string)
    requires key != "" && Named(p.apiKeys)
    ensures EntrySays(p, key, Lookup(ProviderEntries(p), key), CredentialOf(p)) && IsCredential(p, CredentialOf(p))
  {
    UpsertAllLaw(ProviderPairs(p), key);
    LastConcat(KeyPairs(p), OpenworkPairs(p), key);
    OpenworkPair(p, key);
    SinglePair(p, key);
    OrderedLaw(p, key);
    CredentialLaw(p);
    hide LastPair, KeysGive, Single, CredentialOf, IsCredential, Lookup, KeyPairs, OpenworkPairs, UpsertAll, Ordered;
  }
}
