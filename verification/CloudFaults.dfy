/** What a pass or a sweep that throws has done by then, what an error-free pass reports, and
    what the answers of the cloud must hold. */
module CloudFaults {
  import opened Strings
  import opened Wrappers
  import opened CloudApply
  import opened CloudPrepare

  // ------------------------------------------------------------------ passes

  /** The managed ids a pass that throws keeps on record: all it may have written. */
  ghost predicate OnRecord(s: Sync, p: Prepared, q: Sync) {
    q.managed == s.managed + p.desired.Keys && q.fingerprint == s.fingerprint
  }

  /** A pass that throws at its provider write has changed nothing; one that throws later has
      written the providers of the error-free pass, and on record every id it may have written.
      One that throws before it deletes env keys has left the env store and what it owns; one
      that throws while deleting them has upserted every desired value and deleted exactly the
      keys it got to, which it no longer owns; and one that throws later has done with them. */
  lemma FaultyPass(s: Sync, p: Prepared, fault: Fault)
    requires UniqueKeys(p.entries)
    ensures var q, done := Pass(s, p, fault).0, Pass(s, p, NoFault).0;
      && (fault.AtProviders? ==> q == s)
      && (!fault.AtProviders? ==> q.providers == done.providers)
      && (fault.AtEnv? ==> q.env == s.env && q.owned == s.owned && OnRecord(s, p, q))
      && (fault.Later? ==> q.env == done.env && q.owned == done.owned && OnRecord(s, p, q))
      && (fault.AtDelete? ==> OnRecord(s, p, q) && Deleting(s, p, q, fault.deleted))
      && (fault.NoFault? ==> q.managed == p.desired.Keys && q.fingerprint == Some(p.fingerprint))
  {
    if fault.AtDelete? { DeletingLaw(s, p, fault.deleted); }
    hide Lookup, Missing, Upserted, ManagedMap, Keys;
    assert s.owned + Keys(p.entries) - (s.owned - Keys(p.entries)) == Keys(p.entries);
  }

  /** Of the owned keys that are no longer desired, those in `deleted` are gone. */
  ghost predicate Deleting(s: Sync, p: Prepared, q: Sync, deleted: set<string>) {
    forall k ::
      var desired := Lookup(p.entries, k);
      var gone := k in s.owned && desired.None? && k in deleted;
      && (k in q.owned <==> desired.Some? || (k in s.owned && !gone))
      && (k in q.env <==> desired.Some? || (k in s.env && !gone))
      && (k in q.env ==> q.env[k] == if desired.Some? then desired.value else s.env[k])
  }

  lemma DeletingLaw(s: Sync, p: Prepared, deleted: set<string>)
    requires UniqueKeys(p.entries)
    ensures Deleting(s, p, Pass(s, p, AtDelete(deleted)).0, deleted)
  {
    hide Lookup, Missing, Upserted, ManagedMap;
    MissingLaw(s.env, p.entries);
  }

  lemma {:induction false} MissingHolds(env: map<string, string>, entries: seq<EnvEntry>, e: EnvEntry)
    ensures e in Missing(env, entries) <==> e in entries && !(e.key in env && env[e.key] == e.value)
  {
    if entries != [] {
      var n := |entries| - 1;
      MissingHolds(env, entries[..n], e);
      assert entries == entries[..n] + [entries[n]];
    }
  }

  /** A pass reports exactly when it throws nowhere, and then what it did: whether the managed
      part of the provider map differed from the desired map, which entries the env store did
      not hold, which owned keys were no longer desired, and whether the fingerprint is new. */
  lemma ReportExactly(s: Sync, p: Prepared, fault: Fault)
    ensures var report := Pass(s, p, fault).1;
      && (report.Some? <==> fault.NoFault?)
      && (report.Some? ==>
            && (report.value.providersWritten <==> ManagedMap(s.providers) != p.desired)
            && (forall e :: e in report.value.upserts <==> e in p.entries && !(e.key in s.env && s.env[e.key] == e.value))
            && (forall k :: k in report.value.deletes <==> k in s.owned && Lookup(p.entries, k).None?)
            && (report.value.fingerprintChanged <==> s.fingerprint != Some(p.fingerprint)))
  {
    forall e ensures e in Missing(s.env, p.entries) <==> e in p.entries && !(e.key in s.env && s.env[e.key] == e.value) {
      MissingHolds(s.env, p.entries, e);
    }
    hide Missing, Upserted, ManagedMap, Lookup;
  }

  // ------------------------------------------------------------------ sweeps

  /** Every sweep, throwing or not, forgets the fingerprint and what the cloud owns; it takes
      away the managed providers unless it throws at them, and of the owned env keys those it
      gets to. */
  lemma SweepExactly(s: Sync, fault: Fault)
    ensures var q := Sweep(s, fault);
      var stuck := fault.AtProviders? && s.managed != {};
      && q.owned == {} && q.managed == {} && q.fingerprint.None?
      && (forall id :: id in q.providers <==> id in s.providers && (stuck || id !in s.managed))
      && (forall id :: id in q.providers ==> q.providers[id] == s.providers[id])
      && (forall k :: k in q.env <==>
            k in s.env && !(k in s.owned && !stuck && !fault.AtEnv? && (fault.AtDelete? ==> k in fault.deleted)))
      && (forall k :: k in q.env ==> q.env[k] == s.env[k])
  {
  }

  // ------------------------------------------------------------------ answers

  /** The spellings of a cloud provider's prefix. */
  ghost predicate CloudPrefix(s: string) {
    s in {"lpr_", "lpR_", "lPr_", "lPR_", "Lpr_", "LpR_", "LPr_", "LPR_"}
  }

  lemma CloudIdExactly(id: string)
    ensures IsCloudId(id) <==> |id| >= 4 && CloudPrefix(id[..4])
  {
    if |id| >= 4 { assert id[..4] == [id[0], id[1], id[2], id[3]]; }
  }

  ghost predicate Blank(s: string) {
    forall i :: 0 <= i < |s| ==> IsSpace(s[i])
  }

  lemma {:induction false} TrimBlanks(s: string) returns (a: string, b: string)
    ensures s == a + Trim(s) + b && Blank(a) && Blank(b)
  {
    if s == "" {
      a, b := "", "";
    } else if IsSpace(s[0]) {
      a, b := TrimBlanks(s[1..]);
      assert s == [s[0]] + s[1..] && [s[0]] + (a + Trim(s[1..]) + b) == ([s[0]] + a) + Trim(s[1..]) + b;
      a := [s[0]] + a;
      hide IsSpace;
    } else if IsSpace(s[|s| - 1]) {
      var n := |s| - 1;
      a, b := TrimBlanks(s[..n]);
      assert s == s[..n] + [s[n]] && (a + Trim(s[..n]) + b) + [s[n]] == a + Trim(s[..n]) + (b + [s[n]]);
      b := b + [s[n]];
      hide IsSpace;
    } else {
      a, b := "", "";
      assert s == "" + s + "";
    }
  }

  lemma {:induction false} TrimInside(a: string, s: string, b: string)
    requires Blank(a) && Blank(b) && s != "" && !IsSpace(s[0]) && !IsSpace(s[|s| - 1])
    ensures Trim(a + s + b) == s
    decreases |a| + |b|
  {
    var t := a + s + b;
    if a != "" {
      assert t[0] == a[0] && t[1..] == a[1..] + s + b;
      TrimInside(a[1..], s, b);
    } else if b != "" {
      assert t[0] == s[0] && t[|t| - 1] == b[|b| - 1] && t[..|t| - 1] == a + s + b[..|b| - 1];
      TrimInside(a, s, b[..|b| - 1]);
    } else {
      assert t == s;
    }
  }

  /** A key is managed exactly when it is a cloud id, or "openwork" with nothing but blanks
      around it. */
  lemma ManagedExactly(id: string)
    ensures IsManagedKey(id) <==>
      (|id| >= 4 && CloudPrefix(id[..4])) || exists a, b :: Blank(a) && Blank(b) && id == a + "openwork" + b
  {
    CloudIdExactly(id);
    hide IsCloudId, CloudPrefix;
    if Trim(id) == "openwork" {
      var a, b := TrimBlanks(id);
    }
    if a, b :| Blank(a) && Blank(b) && id == a + "openwork" + b {
      assert !IsSpace("openwork"[0]) && !IsSpace("openwork"[|"openwork"| - 1]);
      TrimInside(a, "openwork", b);
    }
  }

  /** An answer of the list and one of a connection give a provider. */
  predicate Matches(listed: Answer, connected: Answer) {
    && listed.complete && IsCloudId(listed.provider.id)
    && connected.complete && connected.provider.id == listed.provider.id
  }

  /** A pass has providers to work on exactly when every answer of the list is complete and has
      a cloud id, and each has a connection that is complete and has the same id; and then
      these are the providers of the connections, in the order of the list. */
  lemma {:induction false} FetchedExactly(list: seq<Answer>, connections: seq<Answer>)
    ensures var fetched := Fetched(list, connections);
      && (fetched.Some? <==> |list| <= |connections| && forall i :: 0 <= i < |list| ==> Matches(list[i], connections[i]))
      && (fetched.Some? ==> |fetched.value| == |list| && forall i :: 0 <= i < |list| ==> fetched.value[i] == connections[i].provider)
  {
    hide IsCloudId;
    if list != [] && connections != [] {
      FetchedExactly(list[1..], connections[1..]);
      assert list == [list[0]] + list[1..] && connections == [connections[0]] + connections[1..];
      forall i | 0 <= i < |list[1..]| && i < |connections[1..]|
        ensures list[1..][i] == list[i + 1] && connections[1..][i] == connections[i + 1]
      {
      }
    }
  }
}
