/** What one pass of CloudProviderSync writes (apps/server/src/cloud-provider-sync.ts): the
    runtime provider map, the env store, and the sets of what the cloud owns. Providers
    are merged key by key, null deleting; configurations compare by their stable JSON. */
module CloudApply {
  import opened Strings
  import opened Wrappers

  // Env entries

  datatype EnvEntry = EnvEntry(key: string, value: string)

  ghost predicate UniqueKeys(entries: seq<EnvEntry>) {
    forall i, j :: 0 <= i < j < |entries| ==> entries[i].key != entries[j].key
  }

  /** Position of the first entry with a key; the length when there is none. */
  function Find(entries: seq<EnvEntry>, key: string): (i: nat)
    ensures i <= |entries|
    ensures i < |entries| ==> entries[i].key == key
    ensures forall k :: 0 <= k < i ==> entries[k].key != key
  {
    if entries == [] || entries[0].key == key then 0 else 1 + Find(entries[1..], key)
  }

  /** upsertEnvEntry */
  function Upsert(entries: seq<EnvEntry>, key: string, value: string): seq<EnvEntry> {
    var k, v := Trim(key), Trim(value);
    if k == "" || v == "" then entries
    else if Find(entries, k) < |entries| then entries[Find(entries, k) := EnvEntry(k, v)]
    else entries + [EnvEntry(k, v)]
  }

  function UpsertAll(entries: seq<EnvEntry>, pairs: seq<(string, string)>): seq<EnvEntry> {
    if pairs == [] then entries
    else
      var last := pairs[|pairs| - 1];
      Upsert(UpsertAll(entries, pairs[..|pairs| - 1]), last.0, last.1)
  }

  method UpsertEntry(entries: array<EnvEntry>, count: nat, key: string, value: string) returns (grown: array<EnvEntry>, size: nat)
    requires count <= entries.Length
    modifies entries
    ensures size <= grown.Length && grown[..size] == Upsert(old(entries[..count]), key, value)
    ensures grown == entries || fresh(grown)
  {
    var trimmedKey, trimmedValue := Trim(key), Trim(value);
    grown, size := entries, count;
    if trimmedKey == "" || trimmedValue == "" {
      return;
    }
    var i := 0;
    while i < count && entries[i].key != trimmedKey
      invariant i <= count
      invariant forall k :: 0 <= k < i ==> entries[k].key != trimmedKey
    {
      i := i + 1;
    }
    ghost var before := entries[..count];
    assert i == Find(before, trimmedKey);
    if i < count {
      entries[i] := EnvEntry(trimmedKey, trimmedValue);
      return;
    }
    if count == entries.Length {
      grown := new EnvEntry[2 * count + 1](_ => EnvEntry("", ""));
      forall k | 0 <= k < count {
        grown[k] := entries[k];
      }
    }
    grown[count] := EnvEntry(trimmedKey, trimmedValue);
    size := count + 1;
    assert grown[..count] == before;
  }

  /** The value an entry list gives a key. */
  function Lookup(entries: seq<EnvEntry>, key: string): Option<string> {
    var i := Find(entries, key);
    if i < |entries| then Some(entries[i].value) else None
  }

  /** The value of the last pair for a key whose key and value are not blank. */
  function LastPair(pairs: seq<(string, string)>, key: string): Option<string> {
    if pairs == [] then None
    else
      var (k, v) := pairs[|pairs| - 1];
      if Trim(k) == key && Trim(v) != "" then Some(Trim(v)) else LastPair(pairs[..|pairs| - 1], key)
  }

  lemma FindUnique(entries: seq<EnvEntry>, i: nat)
    requires UniqueKeys(entries) && i < |entries|
    ensures Find(entries, entries[i].key) == i
  {
  }

  lemma UpsertKeeps(entries: seq<EnvEntry>, key: string, value: string)
    requires UniqueKeys(entries)
    ensures UniqueKeys(Upsert(entries, key, value))
  {
    hide Trim;
  }

  lemma UpsertLookup(entries: seq<EnvEntry>, key: string, value: string, k: string)
    requires UniqueKeys(entries)
    ensures Lookup(Upsert(entries, key, value), k) ==
            if k == Trim(key) != "" && Trim(value) != "" then Some(Trim(value)) else Lookup(entries, k)
  {
    hide Trim;
    UpsertKeeps(entries, key, value);
    var after := Upsert(entries, key, value);
    var t := Trim(key);
    if t != "" && Trim(value) != "" {
      var at := Find(entries, t);
      assert after[at] == EnvEntry(t, Trim(value)) && at < |after|;
      FindUnique(after, at);
      if k != t {
        OtherFound(entries, after, at, k);
      }
    }
  }

  /** Lists that agree but for one entry, of another key, find a key alike. */
  lemma OtherFound(a: seq<EnvEntry>, b: seq<EnvEntry>, at: nat, k: string)
    requires UniqueKeys(a) && UniqueKeys(b) && at < |b| && b[at].key != k
    requires |a| == |b| || (|b| == |a| + 1 && at == |a|)
    requires forall i :: 0 <= i < |a| && i != at ==> b[i] == a[i]
    requires at < |a| ==> a[at].key != k
    ensures Lookup(a, k) == Lookup(b, k)
  {
    var i, j := Find(a, k), Find(b, k);
    if i < |a| {
      assert b[i] == a[i];
      FindUnique(b, i);
    } else {
      forall x | 0 <= x < |b| ensures b[x].key != k {
        if x != at {
          assert b[x] == a[x];
        }
      }
    }
  }

  /** A list built by upserts from nothing has each key once, and gives it its last
      non-blank value, trimmed. */
  lemma {:induction false} UpsertAllLaw(pairs: seq<(string, string)>, key: string)
    requires key != ""
    ensures UniqueKeys(UpsertAll([], pairs))
    ensures Lookup(UpsertAll([], pairs), key) == LastPair(pairs, key)
  {
    hide Upsert, Lookup, Trim;
    if pairs == [] {
      assert Lookup([], key) == None by {
        NoLookup(key);
      }
    } else {
      var init, last := pairs[..|pairs| - 1], pairs[|pairs| - 1];
      UpsertAllLaw(init, key);
      UpsertKeeps(UpsertAll([], init), last.0, last.1);
      UpsertLookup(UpsertAll([], init), last.0, last.1, key);
    }
  }

  lemma NoLookup(key: string)
    ensures Lookup([], key) == None
  {
  }

  // A pass

  type Config = string

  /** The pattern of a cloud provider's id: `lpr_` in either case at its start. */
  predicate IsCloudId(id: string) {
    |id| >= 4 && (id[0] == 'l' || id[0] == 'L') && (id[1] == 'p' || id[1] == 'P') &&
    (id[2] == 'r' || id[2] == 'R') && id[3] == '_'
  }

  /** isCloudManagedProviderKey */
  predicate IsManagedKey(id: string) {
    IsCloudId(id) || Trim(id) == "openwork"
  }

  function ManagedMap(providers: map<string, Config>): map<string, Config> {
    map id | id in providers && IsManagedKey(id) :: providers[id]
  }

  /** A materialization: its fingerprint, desiredProviderMap, and env entries. */
  datatype Prepared = Prepared(fingerprint: string, desired: map<string, Config>, entries: seq<EnvEntry>)

  datatype Sync = Sync(
    providers: map<string, Config>,
    env: map<string, string>,
    owned: set<string>,
    managed: set<string>,
    fingerprint: Option<string>)

  /** Where a pass or sweep throws, if it does: at its provider write, while reading or
      writing the env store, after deleting some keys from it, or later. */
  datatype Fault = NoFault | AtProviders | AtEnv | AtDelete(deleted: set<string>) | Later

  /** Writes of a pass: whether the provider map was written, which entries were upserted,
      which keys deleted. */
  datatype Detail = Detail(providersWritten: bool, upserts: seq<EnvEntry>, deletes: set<string>, fingerprintChanged: bool)

  /** mergeRuntimeProviderUpdate with a patch: its keys replaced, its nulls deleted. */
  function Merge(providers: map<string, Config>, set_: map<string, Config>, nulls: set<string>): map<string, Config> {
    (providers - nulls) + set_
  }

  function Keys(entries: seq<EnvEntry>): (keys: set<string>)
    ensures forall k :: k in keys <==> Lookup(entries, k).Some?
  {
    set e | e in entries :: e.key
  }

  /** The entries the env store does not hold already. */
  function Missing(env: map<string, string>, entries: seq<EnvEntry>): seq<EnvEntry> {
    if entries == [] then []
    else
      var e := entries[|entries| - 1];
      Missing(env, entries[..|entries| - 1]) + (if e.key in env && env[e.key] == e.value then [] else [e])
  }

  function Upserted(env: map<string, string>, entries: seq<EnvEntry>): map<string, string> {
    if entries == [] then env
    else
      var e := entries[|entries| - 1];
      Upserted(env, entries[..|entries| - 1])[e.key := e.value]
  }

  function ProvidersChanged(s: Sync, p: Prepared): bool {
    ManagedMap(s.providers) != p.desired
  }

  function NullKeys(s: Sync, p: Prepared): set<string> {
    set id | id in ManagedMap(s.providers) && id !in p.desired
  }

  /** apply, and the fingerprint runPass records after it, up to a fault. */
  function Pass(s: Sync, p: Prepared, fault: Fault): (Sync, Option<Detail>) {
    if fault.AtProviders? then (s, None)
    else
      var providers := if ProvidersChanged(s, p) then Merge(s.providers, p.desired, NullKeys(s, p)) else s.providers;
      var s1 := s.(providers := providers, managed := s.managed + p.desired.Keys);
      if fault.AtEnv? then (s1, None)
      else
        var upserts := Missing(s.env, p.entries);
        var deletes := s.owned - Keys(p.entries);
        var gone := if fault.AtDelete? then deletes * fault.deleted else deletes;
        var s2 := s1.(env := Upserted(s.env, upserts) - gone, owned := s.owned + Keys(p.entries) - gone);
        if fault.AtDelete? || fault.Later? then (s2, None)
        else
          (s2.(managed := p.desired.Keys, fingerprint := Some(p.fingerprint)),
           Some(Detail(ProvidersChanged(s, p), upserts, deletes, s.fingerprint != Some(p.fingerprint))))
  }

  /** The sweep of a cleared session; its `finally` forgets what the cloud owned. */
  function Sweep(s: Sync, fault: Fault): Sync {
    var forgotten := s.(owned := {}, managed := {}, fingerprint := None);
    if fault.AtProviders? && s.managed != {} then forgotten
    else
      var gone := if fault.AtDelete? then s.owned * fault.deleted else if fault.AtEnv? then {} else s.owned;
      forgotten.(providers := Merge(s.providers, map[], s.managed), env := s.env - gone)
  }

  // What a pass reaches

  ghost predicate AllManaged(p: Prepared) {
    forall id :: id in p.desired ==> IsManagedKey(id)
  }

  lemma {:induction false} MissingAt(env: map<string, string>, entries: seq<EnvEntry>, k: string)
    requires UniqueKeys(entries)
    ensures var after := Upserted(env, Missing(env, entries));
            && (k in after <==> k in env || Lookup(entries, k).Some?)
            && (Lookup(entries, k).Some? ==> after[k] == Lookup(entries, k).value)
            && (Lookup(entries, k).None? && k in env ==> after[k] == env[k])
  {
    hide Lookup;
    if entries == [] {
      NoLookup(k);
    } else {
      var init, e := entries[..|entries| - 1], entries[|entries| - 1];
      MissingAt(env, init, k);
      LookupLast(entries, k);
      if k == e.key {
        LookupAbsent(entries);
      }
      var missing := Missing(env, init);
      assert (missing + [e])[..|missing + [e]| - 1] == missing;
      assert missing + [] == missing;
    }
  }

  lemma LookupAbsent(entries: seq<EnvEntry>)
    requires UniqueKeys(entries) && entries != []
    ensures Lookup(entries[..|entries| - 1], entries[|entries| - 1].key) == None
  {
    var n := |entries| - 1;
    forall x | 0 <= x < n ensures entries[..n][x].key != entries[n].key {
    }
  }

  /** Upserting the missing entries makes the store give every entry its value, and leaves
      every other key. */
  lemma MissingLaw(env: map<string, string>, entries: seq<EnvEntry>)
    requires UniqueKeys(entries)
    ensures forall k :: k in Upserted(env, Missing(env, entries)) <==> k in env || Lookup(entries, k).Some?
    ensures forall k :: k in Upserted(env, Missing(env, entries)) ==>
      Upserted(env, Missing(env, entries))[k] == if Lookup(entries, k).Some? then Lookup(entries, k).value else env[k]
  {
    hide Lookup, Missing, Upserted;
    forall k
      ensures k in Upserted(env, Missing(env, entries)) <==> k in env || Lookup(entries, k).Some?
      ensures k in Upserted(env, Missing(env, entries)) ==>
        Upserted(env, Missing(env, entries))[k] == if Lookup(entries, k).Some? then Lookup(entries, k).value else env[k]
    {
      MissingAt(env, entries, k);
    }
  }

  lemma LookupLast(entries: seq<EnvEntry>, k: string)
    requires UniqueKeys(entries) && entries != []
    ensures var e := entries[|entries| - 1];
            Lookup(entries, k) == if k == e.key then Some(e.value) else Lookup(entries[..|entries| - 1], k)
  {
    var n := |entries| - 1;
    var init := entries[..n];
    if k == entries[n].key {
      FindUnique(entries, n);
    } else if Find(init, k) < n {
      FindUnique(entries, Find(init, k));
    }
  }

  /** One error-free pass: providers outside the managed keys and the desired ones stay, the
      env holds the desired values, previously owned keys no longer desired are gone, every
      other key stays, and what the cloud owns is exactly what is desired. */
  lemma PassLaw(s: Sync, p: Prepared)
    requires UniqueKeys(p.entries)
    ensures var q := Pass(s, p, NoFault).0;
            && (forall id :: id in p.desired ==> id in q.providers && q.providers[id] == p.desired[id])
            && (forall id :: IsManagedKey(id) && id !in p.desired ==> id !in q.providers)
            && (forall id :: !IsManagedKey(id) && id !in p.desired ==>
                 (id in q.providers <==> id in s.providers) && (id in s.providers ==> q.providers[id] == s.providers[id]))
            && (forall k :: Lookup(p.entries, k).Some? ==> k in q.env && q.env[k] == Lookup(p.entries, k).value)
            && (forall k :: k in s.owned && Lookup(p.entries, k).None? ==> k !in q.env)
            && (forall k :: k !in s.owned && Lookup(p.entries, k).None? ==>
                 (k in q.env <==> k in s.env) && (k in s.env ==> q.env[k] == s.env[k]))
            && q.owned == Keys(p.entries) && q.managed == p.desired.Keys
  {
    hide Lookup, IsManagedKey, Missing, Upserted;
    MissingLaw(s.env, p.entries);
  }

  /** An error-free pass makes the managed part of the provider map the desired map exactly
      when every desired id is a managed key. */
  lemma PassReachesDesired(s: Sync, p: Prepared)
    requires UniqueKeys(p.entries)
    ensures ManagedMap(Pass(s, p, NoFault).0.providers) == p.desired <==> AllManaged(p)
  {
    hide IsManagedKey, Pass;
    PassLaw(s, p);
    var q := Pass(s, p, NoFault).0;
    if AllManaged(p) {
      assert ManagedMap(q.providers).Keys == p.desired.Keys;
    } else {
      var id :| id in p.desired && !IsManagedKey(id);
      assert id !in ManagedMap(q.providers);
    }
  }

  lemma {:induction false} NothingMissing(env: map<string, string>, entries: seq<EnvEntry>)
    requires UniqueKeys(entries)
    requires forall k :: Lookup(entries, k).Some? ==> k in env && env[k] == Lookup(entries, k).value
    ensures Missing(env, entries) == []
  {
    if entries != [] {
      var init, e := entries[..|entries| - 1], entries[|entries| - 1];
      forall k ensures Lookup(entries, k) == if k == e.key then Some(e.value) else Lookup(init, k) {
        LookupLast(entries, k);
      }
      assert Lookup(entries, e.key) == Some(e.value);
      LookupAbsent(entries);
      forall k | Lookup(init, k).Some? ensures k in env && env[k] == Lookup(init, k).value {
        assert Lookup(entries, k) == Lookup(init, k);
      }
      NothingMissing(env, init);
    }
  }

  /** Repeating a pass upserts and deletes nothing and changes no state; it writes no
      provider either, and so reports no change, exactly when every desired id is a managed
      key. */
  lemma SecondPassNoop(s: Sync, p: Prepared)
    requires UniqueKeys(p.entries)
    ensures var q := Pass(s, p, NoFault).0;
            var (r, detail) := Pass(q, p, NoFault);
            && r == q && detail.Some?
            && detail.value.upserts == [] && detail.value.deletes == {} && !detail.value.fingerprintChanged
            && (detail.value.providersWritten <==> !AllManaged(p))
  {
    hide IsManagedKey, Lookup, Keys, Missing;
    PassLaw(s, p);
    PassReachesDesired(s, p);
    var q := Pass(s, p, NoFault).0;
    NothingMissing(q.env, p.entries);
    var r := Pass(q, p, NoFault).0;
    assert r.providers == q.providers by {
      SameProviders(q, p);
    }
  }

  lemma SameProviders(q: Sync, p: Prepared)
    requires forall id :: id in p.desired ==> id in q.providers && q.providers[id] == p.desired[id]
    requires forall id :: IsManagedKey(id) && id !in p.desired ==> id !in q.providers
    ensures Merge(q.providers, p.desired, NullKeys(q, p)) == q.providers
  {
    hide IsManagedKey;
  }

  // Sign-out after anything

  datatype Event = EPass(p: Prepared, fault: Fault) | ESweep(fault: Fault)

  function Next(s: Sync, e: Event): Sync {
    match e
    case EPass(p, fault) => Pass(s, p, fault).0
    case ESweep(fault) => Sweep(s, fault)
  }

  function After(s: Sync, events: seq<Event>): Sync
    decreases |events|
  {
    if events == [] then s else After(Next(s, events[0]), events[1..])
  }

  /** A run of passes of one signed-in session, each of them faulty or not. */
  ghost predicate Session(events: seq<Event>) {
    forall i :: 0 <= i < |events| ==> events[i].EPass? && UniqueKeys(events[i].p.entries)
  }

  /** A pass that got to its provider write and desires this provider. */
  predicate Writes(e: Event, id: string) {
    e.EPass? && !e.fault.AtProviders? && id in e.p.desired
  }

  predicate Written(events: seq<Event>, id: string) {
    events != [] && (Writes(events[|events| - 1], id) || Written(events[..|events| - 1], id))
  }

  /** Some pass wrote the provider, and since the last one that did an error-free pass no
      longer desired it. */
  predicate Dropped(events: seq<Event>, id: string) {
    && events != []
    && var init, last := events[..|events| - 1], events[|events| - 1];
       !Writes(last, id) && (Dropped(init, id) || (Written(init, id) && last.EPass? && last.fault.NoFault?))
  }

  /** What a session that began in `s0` has left of one provider: under a managed key,
      anything not there before is on record; under another, a pass only ever adds it, and
      it goes off the record when it is dropped. */
  ghost predicate AccountedId(s0: Sync, s: Sync, events: seq<Event>, id: string) {
    if IsManagedKey(id) then
      id in s.providers && id !in s.managed ==> id in s0.providers && s.providers[id] == s0.providers[id]
    else if Written(events, id) then
      id in s.providers && (id in s.managed <==> !Dropped(events, id))
    else
      id !in s.managed && (id in s.providers <==> id in s0.providers) &&
      (id in s.providers ==> s.providers[id] == s0.providers[id])
  }

  lemma NeverDropped(events: seq<Event>, id: string)
    requires Dropped(events, id)
    ensures Written(events, id)
  {
    if Dropped(events[..|events| - 1], id) { NeverDropped(events[..|events| - 1], id); }
  }

  lemma WrittenLast(events: seq<Event>, e: Event, id: string)
    ensures Written(events + [e], id) <==> Writes(e, id) || Written(events, id)
    ensures Dropped(events + [e], id) <==>
      !Writes(e, id) && (Dropped(events, id) || (Written(events, id) && e.EPass? && e.fault.NoFault?))
  {
    assert (events + [e])[..|events + [e]| - 1] == events;
  }

  lemma PassAccountsId(s0: Sync, s: Sync, events: seq<Event>, e: Event, id: string)
    requires AccountedId(s0, s, events, id) && e.EPass?
    ensures AccountedId(s0, Next(s, e), events + [e], id)
  {
    hide IsManagedKey, Missing, Upserted, Lookup, Keys;
    WrittenLast(events, e, id);
    if Dropped(events, id) { NeverDropped(events, id); }
    hide Written, Dropped;
    assert id in e.p.desired && !IsManagedKey(id) ==> id !in ManagedMap(s.providers);
  }

  /** An env key that differs from what the session began with is owned. */
  ghost predicate AccountedEnv(s0: Sync, s: Sync) {
    forall k :: k in s.env && k !in s.owned ==> k in s0.env && s.env[k] == s0.env[k]
  }

  lemma PassAccountsEnv(s0: Sync, s: Sync, p: Prepared, fault: Fault)
    requires AccountedEnv(s0, s) && UniqueKeys(p.entries)
    ensures AccountedEnv(s0, Pass(s, p, fault).0)
  {
    hide IsManagedKey, Lookup, Missing, Upserted;
    MissingLaw(s.env, p.entries);
  }

  lemma {:induction false} AfterAppend(s: Sync, events: seq<Event>, e: Event)
    ensures After(s, events + [e]) == Next(After(s, events), e)
    decreases |events|
  {
    hide Next;
    if events == [] {
      assert events + [e] == [e];
      assert After(Next(s, e), []) == Next(s, e);
    } else {
      assert (events + [e])[1..] == events[1..] + [e];
      AfterAppend(Next(s, events[0]), events[1..], e);
    }
  }

  lemma {:induction false} SessionAccounts(s0: Sync, events: seq<Event>, id: string)
    requires s0.managed == {} && Session(events)
    ensures AccountedEnv(s0, After(s0, events)) && AccountedId(s0, After(s0, events), events, id)
  {
    if events != [] {
      var init, last := events[..|events| - 1], events[|events| - 1];
      hide AccountedId, AccountedEnv, Next, Pass, After;
      SessionAccounts(s0, init, id);
      assert events == init + [last];
      AfterAppend(s0, init, last);
      PassAccountsId(s0, After(s0, init), init, last, id);
      PassAccountsEnv(s0, After(s0, init), last.p, last.fault);
      assert Next(After(s0, init), last) == Pass(After(s0, init), last.p, last.fault).0 by { NextPass(After(s0, init), last); }
    }
  }

  lemma NextPass(s: Sync, e: Event)
    requires e.EPass?
    ensures Next(s, e) == Pass(s, e.p, e.fault).0
  {
    hide Pass;
  }

  /** Signing out after any run of passes, whichever of them failed and wherever, with a
      sweep that does not fail: every env value left was there with that value before, and so
      was every provider under a managed key. A provider under another key stays as it was
      when no pass wrote it; otherwise it is gone, unless it was dropped, and then it stays. */
  lemma SignOutLeaves(s0: Sync, events: seq<Event>, id: string)
    requires s0.owned == {} && s0.managed == {} && Session(events)
    ensures var s := Sweep(After(s0, events), NoFault);
            && s.owned == {} && s.managed == {}
            && (forall k :: k in s.env ==> k in s0.env && s.env[k] == s0.env[k])
            && (IsManagedKey(id) && id in s.providers ==> id in s0.providers && s.providers[id] == s0.providers[id])
            && (!IsManagedKey(id) && Written(events, id) ==> (id in s.providers <==> Dropped(events, id)))
            && (!IsManagedKey(id) && !Written(events, id) ==>
                 (id in s.providers <==> id in s0.providers) &&
                 (id in s.providers ==> s.providers[id] == s0.providers[id]))
  {
    hide IsManagedKey, After, Written, Dropped;
    SessionAccounts(s0, events, id);
  }

  /** Every desired id is a managed key in every pass. */
  ghost predicate ManagedSession(events: seq<Event>) {
    forall i :: 0 <= i < |events| && events[i].EPass? ==> AllManaged(events[i].p)
  }

  lemma {:induction false} ManagedWritten(events: seq<Event>, id: string)
    requires ManagedSession(events) && Written(events, id)
    ensures IsManagedKey(id)
  {
    if !Writes(events[|events| - 1], id) { ManagedWritten(events[..|events| - 1], id); }
  }

  /** Then signing out leaves nothing the cloud wrote and loses no unmanaged provider. */
  lemma SignOutLeavesNothing(s0: Sync, events: seq<Event>)
    requires s0.owned == {} && s0.managed == {} && Session(events) && ManagedSession(events)
    ensures var s := Sweep(After(s0, events), NoFault);
            && (forall id :: id in s.providers ==> id in s0.providers && s.providers[id] == s0.providers[id])
            && (forall id :: id in s0.providers && !IsManagedKey(id) ==> id in s.providers)
            && (forall k :: k in s.env ==> k in s0.env && s.env[k] == s0.env[k])
  {
    hide IsManagedKey, After, Written, Dropped, Sweep, ManagedSession;
    var s := Sweep(After(s0, events), NoFault);
    forall id
      ensures id in s.providers ==> id in s0.providers && s.providers[id] == s0.providers[id]
      ensures id in s0.providers && !IsManagedKey(id) ==> id in s.providers
    {
      SignOutLeaves(s0, events, id);
      if Written(events, id) { ManagedWritten(events, id); }
    }
    SignOutLeaves(s0, events, "");
  }

  // A sweep that throws

  /** The faults that keep a sweep from deleting this key of the env store. */
  predicate Keeps(s: Sync, fault: Fault, key: string) {
    || (fault.AtProviders? && s.managed != {})
    || fault.AtEnv?
    || (fault.AtDelete? && key !in fault.deleted)
  }

  lemma {:induction false} UnownedStays(s: Sync, events: seq<Event>, key: string)
    requires key !in s.owned
    requires forall e <- events | e.EPass? :: UniqueKeys(e.p.entries) && Lookup(e.p.entries, key).None?
    ensures key in After(s, events).env <==> key in s.env
    decreases |events|
  {
    hide Lookup, Missing, Upserted, IsManagedKey;
    if events != [] {
      var e, q := events[0], Next(s, events[0]);
      assert key !in q.owned && (key in q.env <==> key in s.env) by {
        if e.EPass? { MissingLaw(s.env, e.p.entries); }
      }
      hide Next;
      UnownedStays(q, events[1..], key);
    }
  }

  /** A sweep forgets what the cloud owned whether or not it throws. A cloud key then stays
      for good, whatever sweeps and passes of other keys follow, exactly when the sweep threw
      before it deleted that key. */
  lemma FailedSweepForgets(s: Sync, fault: Fault, key: string, events: seq<Event>)
    requires key in s.owned && key in s.env
    requires forall e <- events | e.EPass? :: UniqueKeys(e.p.entries) && Lookup(e.p.entries, key).None?
    ensures Sweep(s, fault).owned == {}
    ensures key in After(Sweep(s, fault), events).env <==> Keeps(s, fault, key)
  {
    hide After, Lookup;
    UnownedStays(Sweep(s, fault), events, key);
  }
}
