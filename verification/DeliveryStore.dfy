/** CloudMcpDeliveryStateStore (apps/server/src/cloud-mcp-health.ts): per workspace and
    directory, which revision of the cloud MCP configuration is desired and which is
    applied. */
module DeliveryStore {
  import opened Strings
  import opened Wrappers

  type Key = string

  datatype State = NotDesired | Pending | Registering | Ready | Failed | Stale

  datatype Metadata = Metadata(trigger: Option<string>, detail: string)

  datatype Entry = Entry(
    workspaceId: string,
    directory: Option<string>,
    desired: string,
    metadata: Metadata,
    state: State,
    updatedAt: int,
    applied: Option<string>,
    appliedAt: Option<int>,
    lastAttemptAt: Option<int>,
    failure: Option<string>)

  type Entries = map<Key, Entry>

  datatype Snapshot = Snapshot(
    state: State,
    desired: Option<string>,
    applied: Option<string>,
    updatedAt: Option<int>,
    appliedAt: Option<int>,
    lastAttemptAt: Option<int>,
    trigger: Option<string>,
    failure: Option<string>)

  function OrEmpty(directory: Option<string>): string {
    if directory.Some? then directory.value else ""
  }

  function KeyOf(workspaceId: string, directory: Option<string>): Key {
    workspaceId + "\0" + OrEmpty(directory)
  }

  /** One call on the store. A revision and a trigger are present when non-empty. */
  datatype Mark =
    | Desired(workspaceId: string, directory: Option<string>, revision: string, metadata: Metadata)
    | Registers(workspaceId: string, directory: Option<string>, revision: string)
    | IsReady(workspaceId: string, directory: Option<string>, revision: string)
    | Fails(workspaceId: string, directory: Option<string>, revision: string, failure: string)
    | GoesStale(workspaceId: string, directory: Option<string>)
    | Clears

  function MarkedDesired(existing: Option<Entry>, m: Mark, now: int): Entry
    requires m.Desired?
  {
    var kept := existing.Some? && existing.value.applied == Some(m.revision);
    Entry(m.workspaceId, m.directory, m.revision, m.metadata,
          if kept then Ready else Pending, now,
          if kept then existing.value.applied else None,
          if kept then existing.value.appliedAt else None,
          if existing.Some? then existing.value.lastAttemptAt else None, None)
  }

  function MarkedRegistering(e: Entry, now: int): Entry {
    e.(state := Registering, lastAttemptAt := Some(now), failure := None)
  }

  function MarkedReady(e: Entry, now: int): Entry {
    e.(state := Ready, applied := Some(e.desired), appliedAt := Some(now), updatedAt := now, failure := None)
  }

  function MarkedFailed(e: Entry, failure: string, now: int): Entry {
    var kept := e.applied == Some(e.desired);
    e.(state := Failed, updatedAt := now, lastAttemptAt := Some(now), failure := Some(failure),
       applied := if kept then e.applied else None, appliedAt := if kept then e.appliedAt else None)
  }

  function MarkedStale(e: Entry, now: int): Entry {
    e.(state := Stale, applied := None, appliedAt := None, updatedAt := now)
  }

  /** The entries after a call at time `now`. */
  function Next(entries: Entries, m: Mark, now: int): Entries {
    match m
    case Clears => map[]
    case Desired(w, d, _, _) =>
      var k := KeyOf(w, d);
      entries[k := MarkedDesired(if k in entries then Some(entries[k]) else None, m, now)]
    case GoesStale(w, d) =>
      var k := KeyOf(w, d);
      if k in entries then entries[k := MarkedStale(entries[k], now)] else entries
    case Registers(w, d, r) => Updated(entries, KeyOf(w, d), r, e => MarkedRegistering(e, now))
    case IsReady(w, d, r) => Updated(entries, KeyOf(w, d), r, e => MarkedReady(e, now))
    case Fails(w, d, r, failure) => Updated(entries, KeyOf(w, d), r, e => MarkedFailed(e, failure, now))
  }

  /** update: a mark for a revision that is still desired. */
  function Updated(entries: Entries, k: Key, revision: string, updater: Entry -> Entry): Entries {
    if k in entries && entries[k].desired == revision then entries[k := updater(entries[k])] else entries
  }

  function EntrySnapshot(e: Entry): Snapshot {
    Snapshot(e.state, Some(e.desired), e.applied, Some(e.updatedAt), e.appliedAt, e.lastAttemptAt, e.metadata.trigger, e.failure)
  }

  function SnapshotOf(entries: Entries, k: Key, revision: Option<string>): Snapshot {
    if revision.None? || revision.value == "" then Snapshot(NotDesired, None, None, None, None, None, None, None)
    else if k !in entries then Snapshot(Pending, revision, None, None, None, None, None, None)
    else if entries[k].desired != revision.value then
      Snapshot(Pending, revision, None, Some(entries[k].updatedAt), None, entries[k].lastAttemptAt, entries[k].metadata.trigger, None)
    else EntrySnapshot(entries[k])
  }

  class CloudMcpDeliveryStateStore {
    var entries: Entries

    constructor ()
      ensures entries == map[]
    {
      entries := map[];
    }

    method MarkDesired(workspaceId: string, directory: Option<string>, revision: string, metadata: Metadata, now: int)
      returns (snapshot: Snapshot)
      modifies this
      ensures entries == Next(old(entries), Desired(workspaceId, directory, revision, metadata), now)
      ensures snapshot == EntrySnapshot(entries[KeyOf(workspaceId, directory)])
    {
      var key := KeyOf(workspaceId, directory);
      var existing := if key in entries then Some(entries[key]) else None;
      var entry := Entry(workspaceId, directory, revision, metadata, Pending, now, None, None, None, None);
      if existing.Some? {
        entry := entry.(lastAttemptAt := existing.value.lastAttemptAt);
        if existing.value.applied == Some(revision) {
          entry := entry.(state := Ready, applied := existing.value.applied, appliedAt := existing.value.appliedAt);
        }
      }
      entries := entries[key := entry];
      snapshot := EntrySnapshot(entry);
    }

    /** update: only for the revision that is still desired. */
    method Update(workspaceId: string, directory: Option<string>, revision: string, updater: Entry -> Entry)
      modifies this
      ensures entries == Updated(old(entries), KeyOf(workspaceId, directory), revision, updater)
    {
      var key := KeyOf(workspaceId, directory);
      if key !in entries || entries[key].desired != revision {
        return;
      }
      entries := entries[key := updater(entries[key])];
    }

    method MarkRegistering(workspaceId: string, directory: Option<string>, revision: string, now: int)
      modifies this
      ensures entries == Next(old(entries), Registers(workspaceId, directory, revision), now)
    {
      Update(workspaceId, directory, revision,
             (entry: Entry) => entry.(state := Registering, lastAttemptAt := Some(now), failure := None));
    }

    method MarkReady(workspaceId: string, directory: Option<string>, revision: string, now: int)
      modifies this
      ensures entries == Next(old(entries), IsReady(workspaceId, directory, revision), now)
    {
      Update(workspaceId, directory, revision,
             (entry: Entry) => entry.(state := Ready, applied := Some(revision), appliedAt := Some(now), updatedAt := now, failure := None));
    }

    method MarkFailed(workspaceId: string, directory: Option<string>, revision: string, failure: string, now: int)
      modifies this
      ensures entries == Next(old(entries), Fails(workspaceId, directory, revision, failure), now)
    {
      Update(workspaceId, directory, revision, (entry: Entry) =>
        entry.(state := Failed, updatedAt := now, lastAttemptAt := Some(now), failure := Some(failure),
               applied := if entry.applied == Some(revision) then entry.applied else None,
               appliedAt := if entry.applied == Some(revision) then entry.appliedAt else None));
    }

    method MarkWorkspaceStale(workspaceId: string, directory: Option<string>, now: int)
      modifies this
      ensures entries == Next(old(entries), GoesStale(workspaceId, directory), now)
    {
      var key := KeyOf(workspaceId, directory);
      if key !in entries {
        return;
      }
      entries := entries[key := entries[key].(state := Stale, applied := None, appliedAt := None, updatedAt := now)];
    }

    method Clear()
      modifies this
      ensures entries == Next(old(entries), Clears, 0)
    {
      entries := map[];
    }

    /** snapshot */
    method TakeSnapshot(workspaceId: string, directory: Option<string>, revision: Option<string>) returns (snapshot: Snapshot)
      ensures snapshot == SnapshotOf(entries, KeyOf(workspaceId, directory), revision)
    {
      if revision.None? || revision.value == "" {
        return Snapshot(NotDesired, None, None, None, None, None, None, None);
      }
      var key := KeyOf(workspaceId, directory);
      if key !in entries {
        return Snapshot(Pending, revision, None, None, None, None, None, None);
      }
      var entry := entries[key];
      if entry.desired != revision.value {
        return Snapshot(Pending, revision, None, Some(entry.updatedAt), None, entry.lastAttemptAt, entry.metadata.trigger, None);
      }
      snapshot := EntrySnapshot(entry);
    }
  }

  // Histories

  type History = seq<(Mark, int)>

  function After(h: History): Entries {
    if h == [] then map[] else Next(After(h[..|h| - 1]), h[|h| - 1].0, h[|h| - 1].1)
  }

  predicate For(m: Mark, k: Key) {
    !m.Clears? && KeyOf(m.workspaceId, m.directory) == k
  }

  /** The revision desired after a history: that of the last markDesired since the last
      clear. */
  ghost predicate DesiredAfter(h: History, k: Key, r: string) {
    exists i :: 0 <= i < |h| && h[i].0.Desired? && For(h[i].0, k) && h[i].0.revision == r && StillDesired(h, i, k)
  }

  ghost predicate StillDesired(h: History, i: nat, k: Key) {
    forall j :: i < j < |h| ==> !h[j].0.Clears? && !(h[j].0.Desired? && For(h[j].0, k))
  }

  /** markReady(r) was called while r was desired, and since then nothing cleared the store,
      marked the entry stale, or desired another revision. */
  ghost predicate ReadySince(h: History, k: Key, r: string) {
    exists i :: 0 <= i < |h| && h[i].0.IsReady? && For(h[i].0, k) && h[i].0.revision == r &&
      DesiredAfter(h[..i], k, r) && Undisturbed(h, i, k, r)
  }

  ghost predicate Undisturbed(h: History, i: nat, k: Key, r: string) {
    forall j :: i < j < |h| ==> !Disturbs(h[j].0, k, r)
  }

  predicate Disturbs(m: Mark, k: Key, r: string) {
    m.Clears? || (For(m, k) && (m.GoesStale? || (m.Desired? && m.revision != r)))
  }

  lemma DesiredSnoc(h: History, k: Key, r: string)
    requires h != []
    ensures var init, m := h[..|h| - 1], h[|h| - 1].0;
            DesiredAfter(h, k, r) <==>
            if m.Clears? then false
            else if m.Desired? && For(m, k) then m.revision == r
            else DesiredAfter(init, k, r)
  {
    var n := |h| - 1;
    var init, m := h[..n], h[n].0;
    if m.Desired? && For(m, k) && m.revision == r {
      assert StillDesired(h, n, k);
    } else if !m.Clears? && !(m.Desired? && For(m, k)) {
      if DesiredAfter(init, k, r) {
        var i :| 0 <= i < |init| && init[i].0.Desired? && For(init[i].0, k) && init[i].0.revision == r && StillDesired(init, i, k);
        assert StillDesired(h, i, k) by {
          forall j | i < j < |h| ensures !h[j].0.Clears? && !(h[j].0.Desired? && For(h[j].0, k)) {
            if j < n {
              assert init[j] == h[j];
            }
          }
        }
        assert h[i] == init[i];
      }
      if DesiredAfter(h, k, r) {
        var i :| 0 <= i < |h| && h[i].0.Desired? && For(h[i].0, k) && h[i].0.revision == r && StillDesired(h, i, k);
        assert init[i] == h[i] && StillDesired(init, i, k);
      }
    }
  }

  lemma ReadySnoc(h: History, k: Key, r: string)
    requires h != []
    ensures var init, m := h[..|h| - 1], h[|h| - 1].0;
            ReadySince(h, k, r) <==>
            !Disturbs(m, k, r) &&
            (ReadySince(init, k, r) || (m.IsReady? && For(m, k) && m.revision == r && DesiredAfter(init, k, r)))
  {
    hide DesiredAfter, For;
    var n := |h| - 1;
    var init, m := h[..n], h[n].0;
    if ReadySince(h, k, r) {
      var i :| 0 <= i < |h| && h[i].0.IsReady? && For(h[i].0, k) && h[i].0.revision == r &&
        DesiredAfter(h[..i], k, r) && Undisturbed(h, i, k, r);
      if i < n {
        assert init[i] == h[i] && init[..i] == h[..i] && Undisturbed(init, i, k, r);
      }
    }
    if !Disturbs(m, k, r) && ReadySince(init, k, r) {
      var i :| 0 <= i < |init| && init[i].0.IsReady? && For(init[i].0, k) && init[i].0.revision == r &&
        DesiredAfter(init[..i], k, r) && Undisturbed(init, i, k, r);
      assert h[i] == init[i] && h[..i] == init[..i];
      forall j | i < j < |h| ensures !Disturbs(h[j].0, k, r) {
        if j < n {
          assert init[j] == h[j];
        }
      }
      assert Undisturbed(h, i, k, r);
    }
    if !Disturbs(m, k, r) && m.IsReady? && For(m, k) && m.revision == r && DesiredAfter(init, k, r) {
      assert h[n].0 == m && h[..n] == init && Undisturbed(h, n, k, r);
    }
  }

  /** The store after any history: an entry desires r exactly when r was the last revision
      desired since the last clear; it shows r applied exactly when it was marked ready
      since r became desired and since the last stale mark or clear; it shows no other
      revision applied; and it is ready only while its desired revision is applied. */
  lemma {:induction false} EntryHistory(h: History, k: Key)
    ensures k in After(h) <==> exists r :: DesiredAfter(h, k, r)
    ensures forall r :: DesiredAfter(h, k, r) <==> k in After(h) && After(h)[k].desired == r
    ensures forall r :: ReadySince(h, k, r) <==> k in After(h) && After(h)[k].applied == Some(r)
    ensures k in After(h) && After(h)[k].applied.Some? ==> After(h)[k].applied == Some(After(h)[k].desired)
    ensures k in After(h) && After(h)[k].state == Ready ==> After(h)[k].applied == Some(After(h)[k].desired)
  {
    hide DesiredAfter, ReadySince;
    if h == [] {
      NothingYet(k);
    } else {
      EntryHistory(h[..|h| - 1], k);
      forall r
        ensures DesiredAfter(h, k, r) <==> k in After(h) && After(h)[k].desired == r
        ensures ReadySince(h, k, r) <==> k in After(h) && After(h)[k].applied == Some(r)
      {
        DesiredSnoc(h, k, r);
        ReadySnoc(h, k, r);
      }
      if k in After(h) {
        assert DesiredAfter(h, k, After(h)[k].desired);
      }
    }
  }

  lemma NothingYet(k: Key)
    ensures forall r :: !DesiredAfter([], k, r) && !ReadySince([], k, r)
  {
  }

  /** What a snapshot of r says: r is applied exactly when it was marked ready since it
      became desired and since the last stale mark or clear; ready implies applied; and no
      snapshot shows another revision as applied. */
  lemma SnapshotHistory(h: History, k: Key, r: string)
    requires r != ""
    ensures var s := SnapshotOf(After(h), k, Some(r));
            && (s.applied == Some(r) <==> ReadySince(h, k, r))
            && (s.applied == None || s.applied == Some(r))
            && (s.state == Ready ==> ReadySince(h, k, r))
  {
    hide ReadySince, DesiredAfter;
    EntryHistory(h, k);
  }

  // What each call leaves its mark on

  /** Call `i` counts for the entry: a desire always, a stale mark when there is an entry, and
      the other marks only for the revision then desired. */
  ghost predicate Counts(h: History, i: nat, k: Key)
    requires i < |h|
  {
    && For(h[i].0, k)
    && (h[i].0.GoesStale? ==> exists r :: DesiredAfter(h[..i], k, r))
    && (h[i].0.Registers? || h[i].0.IsReady? || h[i].0.Fails? ==> DesiredAfter(h[..i], k, h[i].0.revision))
  }

  datatype Field = StateField | UpdatedField | AttemptField | FailureField | AppliedField | MetadataField

  /** The calls that decide a field. */
  predicate Decides(m: Mark, field: Field) {
    match field
    case StateField => true
    case UpdatedField => !m.Registers?
    case AttemptField => m.Registers? || m.Fails?
    case FailureField => !m.GoesStale?
    case AppliedField => m.IsReady?
    case MetadataField => m.Desired?
  }

  /** Call `i` is the last since the last clear that counts and decides the field. */
  ghost predicate Decided(h: History, i: nat, k: Key, field: Field)
    requires i < |h|
  {
    Counts(h, i, k) && Decides(h[i].0, field) &&
    forall j :: i < j < |h| ==> !h[j].0.Clears? && !(Counts(h, j, k) && Decides(h[j].0, field))
  }

  /** The state a counted call puts the entry in. */
  ghost function StateOf(h: History, i: nat, k: Key): State
    requires i < |h|
  {
    match h[i].0
    case Desired(_, _, r, _) => if ReadySince(h[..i], k, r) then Ready else Pending
    case Registers(_, _, _) => Registering
    case IsReady(_, _, _) => Ready
    case Fails(_, _, _, _) => Failed
    case GoesStale(_, _) => Stale
    case Clears => NotDesired
  }

  /** The field is as call `i` left it. */
  ghost predicate AsLeft(e: Entry, h: History, i: nat, k: Key, field: Field)
    requires i < |h|
  {
    var (m, at) := h[i];
    match field
    case StateField => e.state == StateOf(h, i, k)
    case UpdatedField => e.updatedAt == at
    case AttemptField => e.lastAttemptAt == Some(at)
    case FailureField => e.failure == if m.Fails? then Some(m.failure) else None
    case AppliedField => e.applied.Some? ==> e.appliedAt == Some(at)
    case MetadataField => m.Desired? && e.metadata == m.metadata && e.workspaceId == m.workspaceId && e.directory == m.directory
  }

  lemma CountsBefore(h: History, i: nat, k: Key)
    requires i < |h| - 1
    ensures var init := h[..|h| - 1];
      (Counts(init, i, k) <==> Counts(h, i, k)) && StateOf(init, i, k) == StateOf(h, i, k)
  {
    assert h[..|h| - 1][..i] == h[..i] && h[..|h| - 1][i] == h[i];
    hide DesiredAfter, ReadySince;
  }

  lemma DecidedBefore(h: History, i: nat, k: Key, field: Field)
    requires i < |h| - 1 && Decided(h, i, k, field)
    ensures Decided(h[..|h| - 1], i, k, field)
    ensures var n := |h| - 1; !h[n].0.Clears? && !(Counts(h, n, k) && Decides(h[n].0, field))
  {
    var init := h[..|h| - 1];
    CountsBefore(h, i, k);
    forall j | i < j < |init| ensures !init[j].0.Clears? && !(Counts(init, j, k) && Decides(init[j].0, field)) {
      CountsBefore(h, j, k);
    }
    hide Counts, Decides;
  }

  /** A call for another entry, or that does not count, leaves the entry alone. */
  lemma LastIgnored(h: History, k: Key)
    requires h != [] && !h[|h| - 1].0.Clears? && !Counts(h, |h| - 1, k)
    ensures var init := After(h[..|h| - 1]); (k in After(h) <==> k in init) && (k in init ==> After(h)[k] == init[k])
  {
    var n := |h| - 1;
    var entries, m := After(h[..n]), h[n].0;
    EntryHistory(h[..n], k);
    assert After(h) == Next(entries, m, h[n].1);
    if k in entries { assert DesiredAfter(h[..n], k, entries[k].desired); }
    hide DesiredAfter, ReadySince, KeyOf, After;
    Ignored(entries, m, h[n].1, k);
  }

  lemma Ignored(entries: Entries, m: Mark, now: int, k: Key)
    requires !m.Clears?
    requires For(m, k) ==>
      && !m.Desired? && (m.GoesStale? ==> k !in entries)
      && (m.Registers? || m.IsReady? || m.Fails? ==> k in entries ==> entries[k].desired != m.revision)
    ensures var after := Next(entries, m, now); (k in after <==> k in entries) && (k in entries ==> after[k] == entries[k])
  {
    hide MarkedDesired, MarkedRegistering, MarkedReady, MarkedFailed, MarkedStale, KeyOf;
  }

  /** A call that counts finds the entry, unless it desires it anew. */
  lemma LastFinds(h: History, k: Key)
    requires h != [] && Counts(h, |h| - 1, k)
    ensures var init, m := After(h[..|h| - 1]), h[|h| - 1].0;
      !m.Desired? ==> k in init && (!m.GoesStale? ==> init[k].desired == m.revision)
  {
    EntryHistory(h[..|h| - 1], k);
    hide DesiredAfter, ReadySince, KeyOf, After;
  }

  /** What a call that counts makes of the entry. */
  lemma LastMakes(h: History, k: Key)
    requires h != [] && Counts(h, |h| - 1, k)
    ensures var init, m, now := After(h[..|h| - 1]), h[|h| - 1].0, h[|h| - 1].1;
      && k in After(h)
      && (!m.Desired? ==> k in init)
      && After(h)[k] ==
           match m
           case Desired(_, _, _, _) => MarkedDesired(if k in init then Some(init[k]) else None, m, now)
           case Registers(_, _, _) => MarkedRegistering(init[k], now)
           case IsReady(_, _, _) => MarkedReady(init[k], now)
           case Fails(_, _, _, failure) => MarkedFailed(init[k], failure, now)
           case GoesStale(_, _) => MarkedStale(init[k], now)
           case Clears => After(h)[k]
  {
    LastFinds(h, k);
    hide DesiredAfter, ReadySince, MarkedDesired, MarkedRegistering, MarkedReady, MarkedFailed, MarkedStale, KeyOf;
  }

  /** A call that counts and decides a field leaves it so. */
  lemma LastLeaves(h: History, k: Key, field: Field)
    requires h != [] && Counts(h, |h| - 1, k) && Decides(h[|h| - 1].0, field)
    ensures k in After(h) && AsLeft(After(h)[k], h, |h| - 1, k, field)
  {
    var n := |h| - 1;
    LastMakes(h, k);
    LastFinds(h, k);
    EntryHistory(h[..n], k);
    hide DesiredAfter, ReadySince, KeyOf, After, For;
  }

  /** A call that counts and does not decide a field leaves it alone; of what is applied it may
      take away, and bring back nothing. */
  lemma LastSpares(h: History, k: Key, field: Field)
    requires h != [] && Counts(h, |h| - 1, k) && !Decides(h[|h| - 1].0, field) && k in After(h[..|h| - 1])
    ensures k in After(h)
    ensures var d, e := After(h[..|h| - 1])[k], After(h)[k];
      match field
      case StateField => true
      case UpdatedField => e.updatedAt == d.updatedAt
      case AttemptField => e.lastAttemptAt == d.lastAttemptAt
      case FailureField => e.failure == d.failure
      case AppliedField => e.applied.Some? ==> d.applied.Some? && e.appliedAt == d.appliedAt
      case MetadataField => e.metadata == d.metadata && e.workspaceId == d.workspaceId && e.directory == d.directory
  {
    LastMakes(h, k);
    hide DesiredAfter, ReadySince, KeyOf, After, For;
  }

  /** Every field of an entry is as the last call that decides it left it. */
  lemma {:induction false} FieldHistory(h: History, k: Key, i: nat, field: Field)
    requires i < |h| && Decided(h, i, k, field)
    ensures k in After(h) && AsLeft(After(h)[k], h, i, k, field)
  {
    hide Counts, Decides, For, StateOf;
    var n := |h| - 1;
    AllDecide(h[n].0);
    if i == n {
      LastLeaves(h, k, field);
    } else {
      DecidedBefore(h, i, k, field);
      FieldHistory(h[..n], k, i, field);
      CountsBefore(h, i, k);
      if Counts(h, n, k) { LastSpares(h, k, field); } else { LastIgnored(h, k); }
      hide After;
    }
  }

  lemma AllDecide(m: Mark)
    ensures Decides(m, StateField)
  {
  }

  /** An entry was never attempted exactly when no attempt counts since the last clear. */
  lemma {:induction false} AttemptHistory(h: History, k: Key)
    requires k in After(h) && After(h)[k].lastAttemptAt.Some?
    ensures exists i :: 0 <= i < |h| && Decided(h, i, k, AttemptField)
  {
    hide Counts, For;
    var n := |h| - 1;
    NotCleared(h, k);
    if Counts(h, n, k) && Decides(h[n].0, AttemptField) {
      assert Decided(h, n, k, AttemptField);
    } else {
      if Counts(h, n, k) { AttemptStays(h, k); } else { LastIgnored(h, k); }
      AttemptHistory(h[..n], k);
      var i :| 0 <= i < n && Decided(h[..n], i, k, AttemptField);
      hide After;
      DecidedAfter(h, i, k, AttemptField);
    }
  }

  lemma NotCleared(h: History, k: Key)
    requires h != [] && k in After(h)
    ensures !h[|h| - 1].0.Clears?
  {
  }

  /** An attempt is not made by a desire, a success or a stale mark. */
  lemma AttemptStays(h: History, k: Key)
    requires h != [] && Counts(h, |h| - 1, k) && !Decides(h[|h| - 1].0, AttemptField)
    ensures k in After(h) && After(h)[k].lastAttemptAt.Some? ==>
      k in After(h[..|h| - 1]) && After(h[..|h| - 1])[k].lastAttemptAt == After(h)[k].lastAttemptAt
  {
    LastMakes(h, k);
    hide DesiredAfter, ReadySince, KeyOf, After, For;
  }

  lemma DecidedAfter(h: History, i: nat, k: Key, field: Field)
    requires h != [] && i < |h| - 1 && Decided(h[..|h| - 1], i, k, field)
    requires var n := |h| - 1; !h[n].0.Clears? && !(Counts(h, n, k) && Decides(h[n].0, field))
    ensures Decided(h, i, k, field)
  {
    var n := |h| - 1;
    CountsBefore(h, i, k);
    forall j | i < j < |h| ensures !h[j].0.Clears? && !(Counts(h, j, k) && Decides(h[j].0, field)) {
      if j < n { CountsBefore(h, j, k); assert h[..n][j] == h[j]; }
    }
    hide Counts, Decides;
  }

  /** What a snapshot of a revision shows: of the revision desired, what its entry holds; of
      any other, that it is pending, with the times of the entry and nothing applied. */
  lemma SnapshotShows(h: History, k: Key, r: string)
    requires r != ""
    ensures var s := SnapshotOf(After(h), k, Some(r));
      && s.desired == Some(r)
      && (DesiredAfter(h, k, r) ==>
            k in After(h) &&
            var e := After(h)[k];
            && s.state == e.state && s.applied == e.applied && s.appliedAt == e.appliedAt && s.updatedAt == Some(e.updatedAt)
            && s.lastAttemptAt == e.lastAttemptAt && s.failure == e.failure && s.trigger == e.metadata.trigger)
      && (!DesiredAfter(h, k, r) ==>
            && s.state == Pending && s.applied.None? && s.appliedAt.None? && s.failure.None?
            && (k in After(h) ==> var e := After(h)[k];
                  s.updatedAt == Some(e.updatedAt) && s.lastAttemptAt == e.lastAttemptAt && s.trigger == e.metadata.trigger)
            && (k !in After(h) ==> s.updatedAt.None? && s.lastAttemptAt.None? && s.trigger.None?))
  {
    hide DesiredAfter, ReadySince;
    EntryHistory(h, k);
  }

  /** Nothing is said of no revision. */
  lemma NothingDesired(entries: Entries, k: Key, revision: Option<string>)
    requires revision.None? || revision.value == ""
    ensures var s := SnapshotOf(entries, k, revision);
      && s.state == NotDesired && s.desired.None? && s.applied.None? && s.updatedAt.None? && s.appliedAt.None?
      && s.lastAttemptAt.None? && s.trigger.None? && s.failure.None?
  {
  }

  /** When a snapshot of a desired revision has which state: as the last counted call says. */
  lemma StateExactly(h: History, k: Key, r: string, i: nat)
    requires r != "" && DesiredAfter(h, k, r) && i < |h| && Decided(h, i, k, StateField)
    ensures var state := SnapshotOf(After(h), k, Some(r)).state;
      && (state == Ready <==> h[i].0.IsReady? || (h[i].0.Desired? && ReadySince(h[..i], k, h[i].0.revision)))
      && (state == Pending <==> h[i].0.Desired? && !ReadySince(h[..i], k, h[i].0.revision))
      && (state == Registering <==> h[i].0.Registers?)
      && (state == Failed <==> h[i].0.Fails?)
      && (state == Stale <==> h[i].0.GoesStale?)
  {
    SnapshotShows(h, k, r);
    FieldHistory(h, k, i, StateField);
    hide DesiredAfter, ReadySince, After, SnapshotOf;
  }

  /** Some call always decides: the last one that counts. */
  lemma {:induction false} SomeDecided(h: History, k: Key)
    requires k in After(h)
    ensures exists i :: 0 <= i < |h| && Decided(h, i, k, StateField)
  {
    hide Counts, For;
    var n := |h| - 1;
    NotCleared(h, k);
    if Counts(h, n, k) {
      AllDecide(h[n].0);
      assert Decided(h, n, k, StateField);
    } else {
      LastIgnored(h, k);
      SomeDecided(h[..n], k);
      var i :| 0 <= i < n && Decided(h[..n], i, k, StateField);
      hide After;
      DecidedAfter(h, i, k, StateField);
    }
  }

  /** Calls that carry a superseded revision change nothing. */
  lemma SupersededChangesNothing(h: History, m: Mark, now: int)
    requires m.Registers? || m.IsReady? || m.Fails?
    requires !DesiredAfter(h, KeyOf(m.workspaceId, m.directory), m.revision)
    ensures After(h + [(m, now)]) == After(h)
  {
    hide DesiredAfter, ReadySince;
    EntryHistory(h, KeyOf(m.workspaceId, m.directory));
    assert (h + [(m, now)])[..|h|] == h;
  }

  /** Two directories of one workspace share an entry only when neither names one or they
      are the same; workspaces share none, as long as their ids hold no NUL. */
  lemma KeysDiffer(w1: string, d1: Option<string>, w2: string, d2: Option<string>)
    requires '\0' !in w1 && '\0' !in w2
    ensures KeyOf(w1, d1) == KeyOf(w2, d2) <==> w1 == w2 && OrEmpty(d1) == OrEmpty(d2)
  {
    if KeyOf(w1, d1) == KeyOf(w2, d2) {
      HeadsAgree(w1, w2, OrEmpty(d1), OrEmpty(d2), '\0');
    }
  }
}
