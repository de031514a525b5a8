/** When the desktop cloud diff is empty, that applying it empties it, and what the pending
    changes hold after any sequence of syncs. */
module DesktopDiffTheorems {
  import opened Strings
  import opened Wrappers
  import opened DesktopDiff

  // The remote plugin

  ghost predicate Lists(s: Snapshot, marketplaceId: string, pluginId: string) {
    exists m :: m in s.marketplaces && m.id == marketplaceId && exists p :: p in m.plugins && p.id == pluginId
  }

  lemma {:induction false} FindAnywhereLaw(marketplaces: seq<Marketplace>, id: string)
    ensures FindAnywhere(marketplaces, id).None? ==>
      forall m, p :: m in marketplaces && p in m.plugins ==> p.id != id
    ensures FindAnywhere(marketplaces, id).Some? ==>
      exists m :: m in marketplaces && m.id == FindAnywhere(marketplaces, id).value.marketplaceId &&
        FindAnywhere(marketplaces, id).value.plugin in m.plugins && FindAnywhere(marketplaces, id).value.plugin.id == id
  {
    if marketplaces != [] {
      FindAnywhereLaw(marketplaces[1..], id);
    }
  }

  /** A plugin is found exactly when some marketplace lists it; what is found is listed where
      it is said to be; and the preferred marketplace wins when it lists the plugin. */
  lemma FindRemotePluginLaw(s: Snapshot, preferred: Option<string>, id: string)
    requires forall i, j :: 0 <= i < j < |s.marketplaces| ==> s.marketplaces[i].id != s.marketplaces[j].id
    ensures var found := FindRemotePlugin(s, preferred, id);
            && (found.Some? <==> exists m :: Lists(s, m, id))
            && (found.Some? ==> Lists(s, found.value.marketplaceId, id) && found.value.plugin.id == id)
            && (preferred.Some? && Trim(preferred.value) != "" && Lists(s, Trim(preferred.value), id) ==>
                 found.Some? && found.value.marketplaceId == Trim(preferred.value))
  {
    hide Trim;
    FindAnywhereLaw(s.marketplaces, id);
    var found := FindRemotePlugin(s, preferred, id);
    if exists m :: Lists(s, m, id) {
      var m :| Lists(s, m, id);
      var market :| market in s.marketplaces && market.id == m && exists p :: p in market.plugins && p.id == id;
      var p :| p in market.plugins && p.id == id;
      assert found.Some?;
    }
    if found.Some? {
      assert Lists(s, found.value.marketplaceId, id);
    }
  }

  // When the diff is empty

  predicate Current(installed: Option<string>, remote: Option<string>) {
    Truthy(remote) && installed == remote
  }

  /** Every installed thing has a remote counterpart with its own timestamp. */
  ghost predicate UpToDate(installed: Installed, s: Snapshot) {
    && (forall p :: p in installed.providers ==>
         p.id in s.providers && s.providers[p.id] != "" && p.updatedAt == Some(s.providers[p.id]))
    && (forall m :: m in installed.marketplaces ==>
         var remote := FindMarketplace(s.marketplaces, m.id);
         remote.Some? && remote.value.lastUpdatedAt != "" && m.updatedAt == Some(remote.value.lastUpdatedAt))
    && (forall p :: p in installed.plugins ==> PluginUpToDate(p, s))
  }

  ghost predicate PluginUpToDate(p: Plugin, s: Snapshot) {
    var remote := FindRemotePlugin(s, p.marketplaceId, p.id);
    && remote.Some? && remote.value.plugin.lastUpdatedAt != "" && p.updatedAt == Some(remote.value.plugin.lastUpdatedAt)
    && forall f :: f in p.files ==>
         var item := FindItem(remote.value.plugin.items, f.id);
         item.Some? && item.value.lastUpdatedAt != "" && f.updatedAt == Some(item.value.lastUpdatedAt)
  }

  ghost predicate AllCurrent(rows: seq<Row>) {
    forall r :: r in rows ==> Current(r.installed, r.remote)
  }

  lemma {:induction false} NoChanges(rows: seq<Row>, at: int)
    ensures ChangesOf(rows, at) == [] <==> AllCurrent(rows)
  {
    hide Queued, Current;
    if rows != [] {
      var n := |rows| - 1;
      NoChanges(rows[..n], at);
      QueuedOne(rows[n], at);
      assert rows == rows[..n] + [rows[n]];
    }
  }

  lemma {:induction false} ProviderRowsHold(items: seq<Item>, s: Snapshot, r: Row)
    ensures r in ProviderRows(items, s) <==> exists i :: i in items && r == ProviderRow(i, s)
  {
    if items != [] {
      ProviderRowsHold(items[..|items| - 1], s, r);
      assert items == items[..|items| - 1] + [items[|items| - 1]];
    }
  }

  lemma {:induction false} MarketplaceRowsHold(items: seq<Item>, s: Snapshot, r: Row)
    ensures r in MarketplaceRows(items, s) <==> exists i :: i in items && r == MarketplaceRow(i, s)
  {
    if items != [] {
      MarketplaceRowsHold(items[..|items| - 1], s, r);
      assert items == items[..|items| - 1] + [items[|items| - 1]];
    }
  }

  lemma {:induction false} FileRowsHold(p: Plugin, files: seq<Item>, s: Snapshot, r: Row)
    ensures r in FileRows(p, files, s) <==> exists f :: f in files && r == FileRow(p, f, s)
  {
    if files != [] {
      FileRowsHold(p, files[..|files| - 1], s, r);
      assert files == files[..|files| - 1] + [files[|files| - 1]];
    }
  }

  ghost predicate RowOfPlugin(p: Plugin, s: Snapshot, r: Row) {
    r == PluginRow(p, s) || exists f :: f in p.files && r == FileRow(p, f, s)
  }

  lemma {:induction false} PluginRowsHold(plugins: seq<Plugin>, s: Snapshot, r: Row)
    ensures r in PluginRows(plugins, s) <==> exists p :: p in plugins && RowOfPlugin(p, s, r)
  {
    hide RowOfPlugin;
    if plugins != [] {
      var init, last := plugins[..|plugins| - 1], plugins[|plugins| - 1];
      PluginRowsHold(init, s, r);
      OnePluginHolds(last, s, r);
      assert plugins == init + [last];
      assert last in plugins;
      if p :| p in plugins && RowOfPlugin(p, s, r) {
        assert p in init || p == last;
      }
    }
  }

  lemma OnePluginHolds(p: Plugin, s: Snapshot, r: Row)
    ensures r in [PluginRow(p, s)] + FileRows(p, p.files, s) <==> RowOfPlugin(p, s, r)
  {
    hide PluginRow, FileRow, FileRows;
    FileRowsHold(p, p.files, s, r);
  }

  lemma ItemsCurrent(installed: Installed, s: Snapshot)
    ensures AllCurrent(ProviderRows(installed.providers, s)) <==>
            forall p :: p in installed.providers ==> Current(ProviderRow(p, s).installed, ProviderRow(p, s).remote)
    ensures AllCurrent(MarketplaceRows(installed.marketplaces, s)) <==>
            forall m :: m in installed.marketplaces ==> Current(MarketplaceRow(m, s).installed, MarketplaceRow(m, s).remote)
  {
    hide ProviderRow, MarketplaceRow, Current, ProviderRows, MarketplaceRows;
    forall r ensures r in ProviderRows(installed.providers, s) <==> exists i :: i in installed.providers && r == ProviderRow(i, s) {
      ProviderRowsHold(installed.providers, s, r);
    }
    forall r ensures r in MarketplaceRows(installed.marketplaces, s) <==> exists i :: i in installed.marketplaces && r == MarketplaceRow(i, s) {
      MarketplaceRowsHold(installed.marketplaces, s, r);
    }
    forall p | p in installed.providers ensures ProviderRow(p, s) in ProviderRows(installed.providers, s) {
      ProviderRowsHold(installed.providers, s, ProviderRow(p, s));
    }
    forall m | m in installed.marketplaces ensures MarketplaceRow(m, s) in MarketplaceRows(installed.marketplaces, s) {
      MarketplaceRowsHold(installed.marketplaces, s, MarketplaceRow(m, s));
    }
  }

  lemma PluginsCurrent(plugins: seq<Plugin>, s: Snapshot)
    ensures AllCurrent(PluginRows(plugins, s)) <==> forall p :: p in plugins ==> PluginUpToDate(p, s)
  {
    hide PluginRows, FindRemotePlugin, FindItem;
    if AllCurrent(PluginRows(plugins, s)) {
      forall p | p in plugins ensures PluginUpToDate(p, s) {
        assert RowOfPlugin(p, s, PluginRow(p, s));
        PluginRowsHold(plugins, s, PluginRow(p, s));
        forall f | f in p.files ensures Current(FileRow(p, f, s).installed, FileRow(p, f, s).remote) {
          assert RowOfPlugin(p, s, FileRow(p, f, s));
          PluginRowsHold(plugins, s, FileRow(p, f, s));
        }
      }
    }
    if forall p :: p in plugins ==> PluginUpToDate(p, s) {
      forall r | r in PluginRows(plugins, s) ensures Current(r.installed, r.remote) {
        PluginRowsHold(plugins, s, r);
        var p :| p in plugins && RowOfPlugin(p, s, r);
        assert PluginUpToDate(p, s);
      }
    }
  }

  /** The diff is empty exactly when every installed provider, marketplace, plugin and file
      has a remote counterpart with an equal timestamp. */
  lemma DiffEmptyIff(installed: Installed, s: Snapshot, at: int)
    ensures Diff(installed, s, at) == [] <==> UpToDate(installed, s)
  {
    hide PluginRows, ProviderRows, MarketplaceRows, FindRemotePlugin, FindMarketplace, PluginUpToDate, ChangesOf;
    NoChanges(Rows(installed, s), at);
    var a, b, c := ProviderRows(installed.providers, s), MarketplaceRows(installed.marketplaces, s), PluginRows(installed.plugins, s);
    assert AllCurrent(a + b + c) <==> AllCurrent(a) && AllCurrent(b) && AllCurrent(c);
    ItemsCurrent(installed, s);
    PluginsCurrent(installed.plugins, s);
  }

  /** What a change of a diff records: it was queued now, and its kind is that of its
      timestamps: new without a previous one, modified from one to another, removed without
      a next one. */
  lemma ChangeRecords(installed: Installed, s: Snapshot, at: int, c: Change)
    requires c in Diff(installed, s, at)
    ensures c.queuedAt == at
    ensures c.kind == (if c.next.None? then Removed else if c.previous.None? then New else Modified)
    ensures c.kind.New? ==> Truthy(c.next)
    ensures c.kind.Modified? ==> Truthy(c.previous) && Truthy(c.next) && c.previous != c.next
  {
    hide ChangesOf, Rows;
    ChangesHold(Rows(installed, s), at, c);
  }

  /** The change an installed thing makes beside a remote timestamp. */
  ghost predicate ChangeIs(c: Change, id: string, resource: Resource, marketplaceId: Option<string>, pluginId: Option<string>,
                           installed: Option<string>, remote: Option<string>, at: int)
  {
    var offered, held := remote.Some? && remote.value != "", installed.Some? && installed.value != "";
    && !(offered && installed == remote)
    && c.id == id && c.resource == resource && c.marketplaceId == marketplaceId && c.pluginId == pluginId && c.queuedAt == at
    && c.kind == (if !offered then Removed else if !held then New else Modified)
    && c.previous == (if offered && !held then None else installed)
    && c.next == (if offered then remote else None)
  }

  /** Where a plugin is offered, or else where it was installed from. */
  ghost function HomeOf(p: Plugin, found: Option<Found>): Option<string> {
    if found.Some? then Some(found.value.marketplaceId) else p.marketplaceId
  }

  ghost predicate OfProvider(c: Change, installed: Installed, s: Snapshot, at: int) {
    exists p :: p in installed.providers &&
      ChangeIs(c, p.id, LlmProvider, None, None, p.updatedAt, if p.id in s.providers then Some(s.providers[p.id]) else None, at)
  }

  ghost predicate OfMarketplace(c: Change, installed: Installed, s: Snapshot, at: int) {
    exists m :: m in installed.marketplaces &&
      var remote := FindMarketplace(s.marketplaces, m.id);
      ChangeIs(c, m.id, MarketplaceResource, None, None, m.updatedAt,
               if remote.Some? then Some(remote.value.lastUpdatedAt) else None, at)
  }

  ghost predicate OfPlugin(c: Change, p: Plugin, s: Snapshot, at: int) {
    var found := FindRemotePlugin(s, p.marketplaceId, p.id);
    ChangeIs(c, p.id, PluginResource, HomeOf(p, found), None, p.updatedAt,
             if found.Some? then Some(found.value.plugin.lastUpdatedAt) else None, at)
  }

  ghost predicate OfFile(c: Change, p: Plugin, f: Item, s: Snapshot, at: int) {
    var found := FindRemotePlugin(s, p.marketplaceId, p.id);
    var item := if found.Some? then FindItem(found.value.plugin.items, f.id) else None;
    ChangeIs(c, f.id, ConfigItem, HomeOf(p, found), Some(p.id), f.updatedAt,
             if item.Some? then Some(item.value.lastUpdatedAt) else None, at)
  }

  lemma QueuedIs(r: Row, at: int, c: Change)
    ensures Queued(r, at) == [c] <==> ChangeIs(c, r.id, r.resource, r.marketplaceId, r.pluginId, r.installed, r.remote, at)
  {
  }

  /** A diff holds exactly the changes of installed providers, marketplaces, plugins and files
      whose remote counterpart is not current: each with the place it is offered at, its
      timestamps, and the kind they make. */
  lemma DiffExactly(installed: Installed, s: Snapshot, at: int, c: Change)
    ensures c in Diff(installed, s, at) <==>
      || OfProvider(c, installed, s, at)
      || OfMarketplace(c, installed, s, at)
      || (exists p :: p in installed.plugins && OfPlugin(c, p, s, at))
      || (exists p, f :: p in installed.plugins && f in p.files && OfFile(c, p, f, s, at))
  {
    hide ChangesOf, Rows, Queued, ChangeIs, FindRemotePlugin, FindItem, FindMarketplace;
    ChangesHold(Rows(installed, s), at, c);
    forall r ensures Queued(r, at) == [c] <==> ChangeIs(c, r.id, r.resource, r.marketplaceId, r.pluginId, r.installed, r.remote, at) {
      QueuedIs(r, at, c);
    }
    if c in Diff(installed, s, at) {
      var r :| r in Rows(installed, s) && Queued(r, at) == [c];
      RowsHold(installed, s, r);
    }
    if p :| p in installed.providers &&
            ChangeIs(c, p.id, LlmProvider, None, None, p.updatedAt, if p.id in s.providers then Some(s.providers[p.id]) else None, at) {
      RowsHold(installed, s, ProviderRow(p, s));
      QueuedIs(ProviderRow(p, s), at, c);
    }
    if OfMarketplace(c, installed, s, at) {
      MarketplaceIn(installed, s, at, c);
    }
    if p :| p in installed.plugins && OfPlugin(c, p, s, at) {
      assert RowOfPlugin(p, s, PluginRow(p, s));
      RowsHold(installed, s, PluginRow(p, s));
      QueuedIs(PluginRow(p, s), at, c);
    }
    if p, f :| p in installed.plugins && f in p.files && OfFile(c, p, f, s, at) {
      assert RowOfPlugin(p, s, FileRow(p, f, s));
      RowsHold(installed, s, FileRow(p, f, s));
      QueuedIs(FileRow(p, f, s), at, c);
    }
  }

  lemma MarketplaceIn(installed: Installed, s: Snapshot, at: int, c: Change)
    requires OfMarketplace(c, installed, s, at)
    ensures exists r :: r in Rows(installed, s) && Queued(r, at) == [c]
  {
    hide Rows, Queued, ChangeIs, FindMarketplace;
    var m :| m in installed.marketplaces &&
      var remote := FindMarketplace(s.marketplaces, m.id);
      ChangeIs(c, m.id, MarketplaceResource, None, None, m.updatedAt,
               if remote.Some? then Some(remote.value.lastUpdatedAt) else None, at);
    RowsHold(installed, s, MarketplaceRow(m, s));
    QueuedIs(MarketplaceRow(m, s), at, c);
  }

  // Applying a diff

  predicate SameSlot(a: Row, b: Row) {
    a.resource == b.resource && a.pluginId == b.pluginId && a.id == b.id
  }

  /** Rows of one slot stand beside one remote timestamp. */
  ghost predicate Agree(rows: seq<Row>) {
    forall a, b :: a in rows && b in rows && SameSlot(a, b) ==> a.remote == b.remote
  }

  lemma {:induction false} ChangesHold(rows: seq<Row>, at: int, c: Change)
    ensures c in ChangesOf(rows, at) <==> exists r :: r in rows && Queued(r, at) == [c]
  {
    hide Queued;
    if rows != [] {
      var n := |rows| - 1;
      ChangesHold(rows[..n], at, c);
      assert rows == rows[..n] + [rows[n]];
      QueuedOne(rows[n], at);
    }
  }

  lemma QueuedOne(r: Row, at: int)
    ensures |Queued(r, at)| <= 1
    ensures Queued(r, at) == [] <==> Current(r.installed, r.remote)
    ensures Queued(r, at) != [] ==>
      var c := Queued(r, at)[0];
      && c.resource == r.resource && c.pluginId == r.pluginId && c.id == r.id && c.marketplaceId == r.marketplaceId
      && (c.kind.Removed? <==> !Truthy(r.remote))
      && (Truthy(r.remote) ==> c.next == r.remote)
  {
  }

  /** What the diff says of a row's slot brings that row to its remote timestamp. */
  lemma ChangeFor(rows: seq<Row>, at: int, row: Row)
    requires row in rows && Agree(rows)
    ensures var c := FindChange(ChangesOf(rows, at), row.resource, row.pluginId, row.id);
            && (c.None? ==> Current(row.installed, row.remote))
            && (c.Some? ==> if Truthy(row.remote) then !c.value.kind.Removed? && c.value.next == row.remote else c.value.kind.Removed?)
  {
    hide Queued, FindChange;
    var changes := ChangesOf(rows, at);
    var found := FindChange(changes, row.resource, row.pluginId, row.id);
    QueuedOne(row, at);
    if Queued(row, at) != [] {
      ChangesHold(rows, at, Queued(row, at)[0]);
      FindChangeMisses(changes, Queued(row, at)[0], row);
    }
    if found.Some? {
      FindChangeHits(changes, row);
      ChangesHold(rows, at, found.value);
      var r :| r in rows && Queued(r, at) == [found.value];
      QueuedOne(r, at);
      assert SameSlot(r, row);
    }
  }

  lemma FindChangeMisses(changes: seq<Change>, c: Change, row: Row)
    requires c in changes && c.resource == row.resource && c.pluginId == row.pluginId && c.id == row.id
    ensures FindChange(changes, row.resource, row.pluginId, row.id).Some?
  {
  }

  lemma FindChangeHits(changes: seq<Change>, row: Row)
    requires FindChange(changes, row.resource, row.pluginId, row.id).Some?
    ensures var c := FindChange(changes, row.resource, row.pluginId, row.id).value;
            c in changes && c.resource == row.resource && c.pluginId == row.pluginId && c.id == row.id
  {
  }

  ghost predicate UniquePlugins(plugins: seq<Plugin>) {
    forall p, q :: p in plugins && q in plugins && p.id == q.id ==> p == q
  }

  lemma RowsHold(installed: Installed, s: Snapshot, r: Row)
    ensures r in Rows(installed, s) <==>
            || (exists i :: i in installed.providers && r == ProviderRow(i, s))
            || (exists i :: i in installed.marketplaces && r == MarketplaceRow(i, s))
            || (exists p :: p in installed.plugins && RowOfPlugin(p, s, r))
  {
    hide ProviderRows, MarketplaceRows, PluginRows, ProviderRow, MarketplaceRow, RowOfPlugin;
    ProviderRowsHold(installed.providers, s, r);
    MarketplaceRowsHold(installed.marketplaces, s, r);
    PluginRowsHold(installed.plugins, s, r);
  }

  lemma RowsAgree(installed: Installed, s: Snapshot)
    requires UniquePlugins(installed.plugins)
    ensures Agree(Rows(installed, s))
  {
    hide Rows, FindRemotePlugin, FindItem, FindMarketplace;
    forall a, b | a in Rows(installed, s) && b in Rows(installed, s) && SameSlot(a, b) ensures a.remote == b.remote {
      RowsHold(installed, s, a);
      RowsHold(installed, s, b);
    }
  }

  lemma {:induction false} MovedItemsHold(items: seq<Item>, changes: seq<Change>, resource: Resource, pluginId: Option<string>, m: Item)
    requires m in MovedItems(items, changes, resource, pluginId)
    ensures exists i :: i in items && i.id == m.id &&
              var c := FindChange(changes, resource, pluginId, i.id);
              (c.None? && m == i) || (c.Some? && !c.value.kind.Removed? && m.updatedAt == c.value.next)
  {
    hide FindChange;
    if m in MovedItems(items[1..], changes, resource, pluginId) {
      MovedItemsHold(items[1..], changes, resource, pluginId, m);
    } else {
      assert items[0] in items;
    }
  }

  lemma {:induction false} MovedPluginsHold(plugins: seq<Plugin>, changes: seq<Change>, m: Plugin)
    requires m in MovedPlugins(plugins, changes)
    ensures exists p :: p in plugins && p.id == m.id && p.marketplaceId == m.marketplaceId &&
              m.files == MovedItems(p.files, changes, ConfigItem, Some(p.id)) &&
              var c := FindChange(changes, PluginResource, None, p.id);
              (c.None? && m.updatedAt == p.updatedAt) || (c.Some? && !c.value.kind.Removed? && m.updatedAt == c.value.next)
  {
    hide FindChange, MovedItems;
    if m in MovedPlugins(plugins[1..], changes) {
      MovedPluginsHold(plugins[1..], changes, m);
    } else {
      assert plugins[0] in plugins;
    }
  }

  lemma MovedRowCurrent(rows: seq<Row>, at: int, row: Row, updatedAt: Option<string>)
    requires row in rows && Agree(rows)
    requires var c := FindChange(ChangesOf(rows, at), row.resource, row.pluginId, row.id);
             (c.None? && updatedAt == row.installed) || (c.Some? && !c.value.kind.Removed? && updatedAt == c.value.next)
    ensures Current(updatedAt, row.remote)
  {
    hide FindChange, ChangesOf;
    ChangeFor(rows, at, row);
  }

  lemma MovedPluginCurrent(installed: Installed, s: Snapshot, at: int, m: Plugin)
    requires Agree(Rows(installed, s))
    requires m in MovedPlugins(installed.plugins, Diff(installed, s, at))
    ensures PluginUpToDate(m, s)
  {
    hide FindChange, MovedItems, MovedPlugins, ChangesOf, Rows, FindRemotePlugin, FindItem;
    var rows, changes := Rows(installed, s), Diff(installed, s, at);
    MovedPluginsHold(installed.plugins, changes, m);
    var p :| p in installed.plugins && p.id == m.id && p.marketplaceId == m.marketplaceId &&
      m.files == MovedItems(p.files, changes, ConfigItem, Some(p.id)) &&
      var c := FindChange(changes, PluginResource, None, p.id);
      (c.None? && m.updatedAt == p.updatedAt) || (c.Some? && !c.value.kind.Removed? && m.updatedAt == c.value.next);
    assert RowOfPlugin(p, s, PluginRow(p, s));
    RowsHold(installed, s, PluginRow(p, s));
    MovedRowCurrent(rows, at, PluginRow(p, s), m.updatedAt);
    forall f | f in m.files ensures Current(f.updatedAt, FileRow(m, f, s).remote) {
      MovedItemsHold(p.files, changes, ConfigItem, Some(p.id), f);
      var i :| i in p.files && i.id == f.id &&
        var c := FindChange(changes, ConfigItem, Some(p.id), i.id);
        (c.None? && f == i) || (c.Some? && !c.value.kind.Removed? && f.updatedAt == c.value.next);
      assert RowOfPlugin(p, s, FileRow(p, i, s));
      RowsHold(installed, s, FileRow(p, i, s));
      MovedRowCurrent(rows, at, FileRow(p, i, s), f.updatedAt);
    }
  }

  /** Applying a diff (moving each changed thing to its next timestamp, dropping the removed
      ones) makes the next diff of the same snapshot empty. */
  lemma DiffConverges(installed: Installed, s: Snapshot, at: int, later: int)
    requires UniquePlugins(installed.plugins)
    ensures Diff(Applied(installed, Diff(installed, s, at)), s, later) == []
  {
    hide FindChange, MovedItems, MovedPlugins, ChangesOf, Rows, FindMarketplace, PluginUpToDate;
    var rows, changes := Rows(installed, s), Diff(installed, s, at);
    var after := Applied(installed, changes);
    RowsAgree(installed, s);
    forall p | p in after.providers ensures Current(p.updatedAt, ProviderRow(p, s).remote) {
      MovedItemsHold(installed.providers, changes, LlmProvider, None, p);
      var i :| i in installed.providers && i.id == p.id &&
        var c := FindChange(changes, LlmProvider, None, i.id);
        (c.None? && p == i) || (c.Some? && !c.value.kind.Removed? && p.updatedAt == c.value.next);
      RowsHold(installed, s, ProviderRow(i, s));
      MovedRowCurrent(rows, at, ProviderRow(i, s), p.updatedAt);
    }
    forall m | m in after.marketplaces ensures Current(m.updatedAt, MarketplaceRow(m, s).remote) {
      MovedItemsHold(installed.marketplaces, changes, MarketplaceResource, None, m);
      var i :| i in installed.marketplaces && i.id == m.id &&
        var c := FindChange(changes, MarketplaceResource, None, i.id);
        (c.None? && m == i) || (c.Some? && !c.value.kind.Removed? && m.updatedAt == c.value.next);
      RowsHold(installed, s, MarketplaceRow(i, s));
      MovedRowCurrent(rows, at, MarketplaceRow(i, s), m.updatedAt);
    }
    forall p | p in after.plugins ensures PluginUpToDate(p, s) {
      MovedPluginCurrent(installed, s, at, p);
    }
    DiffEmptyIff(after, s, later);
  }

  // Pending changes

  lemma {:induction false} WithoutHolds(changes: seq<Change>, keys: set<string>, c: Change)
    ensures c in Without(changes, keys) <==> c in changes && ChangeKey(c) !in keys
  {
    hide ChangeKey;
    if changes != [] {
      WithoutHolds(changes[..|changes| - 1], keys, c);
      assert changes == changes[..|changes| - 1] + [changes[|changes| - 1]];
    }
  }

  /** Change `c` came from the last sync whose diff had a change of its key. */
  ghost predicate Newest(syncs: seq<Sync>, c: Change) {
    exists i :: 0 <= i < |syncs| && c in DiffOf(syncs[i]) && SilentAfter(syncs, i, ChangeKey(c))
  }

  ghost predicate SilentAfter(syncs: seq<Sync>, i: nat, key: string) {
    forall j :: i < j < |syncs| ==> key !in KeysOf(DiffOf(syncs[j]))
  }

  lemma NewestSnoc(syncs: seq<Sync>, c: Change)
    requires syncs != []
    ensures var init, last := syncs[..|syncs| - 1], DiffOf(syncs[|syncs| - 1]);
            Newest(syncs, c) <==> c in last || (Newest(init, c) && ChangeKey(c) !in KeysOf(last))
  {
    hide DiffOf, ChangeKey, KeysOf;
    var n := |syncs| - 1;
    var init := syncs[..n];
    if c in DiffOf(syncs[n]) {
      assert SilentAfter(syncs, n, ChangeKey(c));
    } else {
      if Newest(syncs, c) {
        var i :| 0 <= i < |syncs| && c in DiffOf(syncs[i]) && SilentAfter(syncs, i, ChangeKey(c));
        assert init[i] == syncs[i] && SilentAfter(init, i, ChangeKey(c));
      }
      if Newest(init, c) && ChangeKey(c) !in KeysOf(DiffOf(syncs[n])) {
        var i :| 0 <= i < |init| && c in DiffOf(init[i]) && SilentAfter(init, i, ChangeKey(c));
        forall j | i < j < |syncs| ensures ChangeKey(c) !in KeysOf(DiffOf(syncs[j])) {
          if j < n {
            assert init[j] == syncs[j];
          }
        }
        assert syncs[i] == init[i] && SilentAfter(syncs, i, ChangeKey(c));
      }
    }
  }

  /** Over any sequence of syncs, a change is pending exactly when it is of the newest diff
      that had a change of its key. */
  lemma {:induction false} PendingIsNewest(syncs: seq<Sync>, c: Change)
    ensures c in Pending(syncs) <==> Newest(syncs, c)
  {
    hide DiffOf, ChangeKey, Newest, Without;
    if syncs == [] {
      assert !Newest(syncs, c) by {
        NoneNewest(c);
      }
    } else {
      var n := |syncs| - 1;
      PendingIsNewest(syncs[..n], c);
      NewestSnoc(syncs, c);
      WithoutHolds(Pending(syncs[..n]), KeysOf(DiffOf(syncs[n])), c);
    }
  }

  /** The changes of `kept` are those of `all` that have no such key, each as often and in the
      same order. */
  ghost predicate Filtered(kept: seq<Change>, all: seq<Change>, keys: set<string>)
    decreases |all|
  {
    if all == [] then kept == []
    else if ChangeKey(all[0]) in keys then Filtered(kept, all[1..], keys)
    else kept != [] && kept[0] == all[0] && Filtered(kept[1..], all[1..], keys)
  }

  lemma {:induction false} WithoutFilters(all: seq<Change>, keys: set<string>)
    ensures Filtered(Without(all, keys), all, keys)
    decreases |all|
  {
    hide ChangeKey;
    if all != [] {
      WithoutFilters(all[1..], keys);
      WithoutFirst(all, keys);
      var rest := Without(all[1..], keys);
      assert [] + rest == rest && ([all[0]] + rest)[1..] == rest;
      hide Without;
    }
  }

  lemma {:induction false} WithoutFirst(all: seq<Change>, keys: set<string>)
    requires all != []
    ensures Without(all, keys) == (if ChangeKey(all[0]) in keys then [] else [all[0]]) + Without(all[1..], keys)
    decreases |all|
  {
    hide ChangeKey;
    var n := |all| - 1;
    if n > 0 {
      WithoutFirst(all[..n], keys);
      assert all[..n][1..] == all[1..][..n - 1] && all[1..][|all[1..]| - 1] == all[n];
    } else {
      assert all[1..] == [] && all[..0] == [];
    }
  }

  /** A sync that finds changes puts them, in the order of its diff, behind what was pending
      before and has none of their keys, in the order it had; one that finds none changes
      nothing. */
  lemma PendingOrder(syncs: seq<Sync>, last: Sync)
    ensures var before, found, pending := Pending(syncs), DiffOf(last), Pending(syncs + [last]);
      if found == [] then pending == before
      else
        && |found| <= |pending| && pending[|pending| - |found|..] == found
        && Filtered(pending[..|pending| - |found|], before, set c | c in found :: ChangeKey(c))
  {
    hide DiffOf, ChangeKey;
    assert (syncs + [last])[..|syncs|] == syncs;
    WithoutFilters(Pending(syncs), KeysOf(DiffOf(last)));
    var kept := Without(Pending(syncs), KeysOf(DiffOf(last)));
    hide Without, Filtered;
    assert (kept + DiffOf(last))[|kept|..] == DiffOf(last) && (kept + DiffOf(last))[..|kept|] == kept;
  }

  lemma NoneNewest(c: Change)
    ensures !Newest([], c)
  {
  }

  // Keys

  /** Ids that keep the parts of a key apart: no pair of colons inside, none at the end of
      a marketplace's or plugin's. */
  predicate CleanId(id: string) {
    NoPair(id) && (id != "" ==> id[|id| - 1] != ':')
  }

  predicate CleanChange(c: Change) {
    CleanId(OrEmpty(c.marketplaceId)) && CleanId(OrEmpty(c.pluginId)) && NoPair(c.id)
  }

  lemma NameClean(r: Resource)
    ensures CleanId(ResourceName(r))
  {
  }

  lemma KeySplits(c: Change)
    requires CleanChange(c)
    ensures SplitPairs(ChangeKey(c)) == [ResourceName(c.resource), OrEmpty(c.marketplaceId), OrEmpty(c.pluginId), c.id]
  {
    hide SplitPairs, ResourceName, NoPair;
    var a, b, d := ResourceName(c.resource), OrEmpty(c.marketplaceId), OrEmpty(c.pluginId);
    NameClean(c.resource);
    PairsConcat(a, b + "::" + (d + "::" + c.id));
    PairsConcat(b, d + "::" + c.id);
    PairsConcat(d, c.id);
    PairsWhole(c.id);
  }

  lemma NameInjective(a: Resource, b: Resource)
    requires ResourceName(a) == ResourceName(b)
    ensures a == b
  {
    assert ResourceName(a)[0] == ResourceName(b)[0];
  }

  /** Changes of clean ids share a key only when they are about the same thing. */
  lemma ChangeKeyInjective(c: Change, d: Change)
    requires CleanChange(c) && CleanChange(d) && ChangeKey(c) == ChangeKey(d)
    ensures c.resource == d.resource && c.id == d.id
    ensures OrEmpty(c.marketplaceId) == OrEmpty(d.marketplaceId) && OrEmpty(c.pluginId) == OrEmpty(d.pluginId)
  {
    hide SplitPairs, ResourceName, ChangeKey, CleanChange, OrEmpty;
    KeySplits(c);
    KeySplits(d);
    var k := SplitPairs(ChangeKey(c));
    assert k[0] == ResourceName(d.resource) && k[1] == OrEmpty(d.marketplaceId) && k[2] == OrEmpty(d.pluginId) && k[3] == d.id;
    NameInjective(c.resource, d.resource);
  }

  predicate StartsColon(s: string) {
    s != "" && s[0] == ':'
  }

  predicate EndsColon(s: string) {
    s != "" && s[|s| - 1] == ':'
  }

  /** No part of the key holds a pair of colons. */
  predicate Plain(c: Change) {
    NoPair(OrEmpty(c.marketplaceId)) && NoPair(OrEmpty(c.pluginId)) && NoPair(c.id)
  }

  /** A colon at a joint of the key that the part on either side could own. */
  predicate LooseColon(a: string, b: string) {
    EndsColon(a) != StartsColon(b)
  }

  predicate SameThing(c: Change, d: Change) {
    && c.resource == d.resource && c.id == d.id
    && OrEmpty(c.marketplaceId) == OrEmpty(d.marketplaceId) && OrEmpty(c.pluginId) == OrEmpty(d.pluginId)
  }

  lemma NoPairAt(s: string, i: nat)
    requires NoPair(s)
    ensures i + 1 < |s| ==> s[i] != ':' || s[i + 1] != ':'
  {
  }

  /** A part without a pair outgrows another by one colon at most. */
  lemma Overrun(a: string, x: string, b: string, y: string)
    requires a + "::" + x == b + "::" + y && NoPair(a) && NoPair(b) && |a| < |b|
    ensures b == a + ":" && !EndsColon(a) && x == ":" + y
  {
    var s := a + "::" + x;
    NoPairAt(b, |a|);
    if a != "" { NoPairAt(b, |a| - 1); }
    hide NoPair;
    assert s[..|a|] == a && s[..|b|] == b && s[|a|] == ':' && s[|a| + 1] == ':';
    assert b == b[..|a|] + [b[|a|]] && b[..|a|] == a;
    assert s[|a| + 2..] == x && s[|a| + 3..] == y;
    assert s[|a| + 2] == ':';
  }

  lemma NoPairInside(a: string, x: string)
    ensures !NoPair(a + "::" + x)
  {
    var s := a + "::" + x;
    assert s[|a|] == ':' && s[|a| + 1] == ':';
  }

  lemma TwoColons(x: string)
    requires StartsColon(x)
    ensures !NoPair(":" + x)
  {
    assert (":" + x)[0] == ':' && (":" + x)[0 + 1] == x[0];
  }

  /** Two parts with no loose colon between them are the only ones with their key. */
  lemma TwoParts(p: string, x: string, q: string, y: string)
    requires NoPair(p) && NoPair(x) && NoPair(q) && NoPair(y) && !LooseColon(p, x)
    requires p + "::" + x == q + "::" + y
    ensures p == q && x == y
  {
    if |p| < |q| {
      Overrun(p, x, q, y);
    } else if |q| < |p| {
      Overrun(q, y, p, x);
      TwoColons(x);
    } else {
      assert (p + "::" + x)[..|p|] == p && (q + "::" + y)[..|p|] == q;
      assert (p + "::" + x)[|p| + 2..] == x && (q + "::" + y)[|p| + 2..] == y;
    }
  }

  /** ... and three with none at either joint. */
  lemma ThreeParts(m: string, p: string, x: string, n: string, q: string, y: string)
    requires NoPair(m) && NoPair(p) && NoPair(x) && NoPair(n) && NoPair(q) && NoPair(y)
    requires !LooseColon(m, p) && !LooseColon(p, x)
    requires m + "::" + (p + "::" + x) == n + "::" + (q + "::" + y)
    ensures m == n && p == q && x == y
  {
    var s, t := p + "::" + x, q + "::" + y;
    if |m| < |n| {
      Overrun(m, s, n, t);
      LongerFirst(p, x, q, y);
    } else if |n| < |m| {
      Overrun(n, t, m, s);
      assert EndsColon(m);
      ShorterFirst(p, x, q, y);
    } else {
      assert (m + "::" + s)[..|m|] == m && (n + "::" + t)[..|m|] == n;
      assert (m + "::" + s)[|m| + 2..] == s && (n + "::" + t)[|m| + 2..] == t;
      TwoParts(p, x, q, y);
    }
  }

  lemma LongerFirst(p: string, x: string, q: string, y: string)
    requires NoPair(x) && !StartsColon(p) && !LooseColon(p, x)
    ensures p + "::" + x != ":" + (q + "::" + y)
  {
    var s, t := p + "::" + x, q + "::" + y;
    if p != "" {
      assert s[0] == p[0];
    } else {
      assert s[1..] == ":" + x && (":" + t)[1..] == t;
      if q == "" {
        assert t[1] == ':' && (x != "" ==> (":" + x)[1] == x[0]);
      } else {
        assert t[1..] == q[1..] + "::" + y && (":" + x)[1..] == x;
        NoPairInside(q[1..], y);
      }
    }
  }

  lemma ShorterFirst(p: string, x: string, q: string, y: string)
    requires NoPair(p) && NoPair(q) && NoPair(y) && StartsColon(p) && !LooseColon(p, x)
    ensures q + "::" + y != ":" + (p + "::" + x)
  {
    var t, u := q + "::" + y, ":" + (p + "::" + x);
    assert u[0] == ':' && u[1] == ':';
    if q == "" {
      assert t[2..] == y && u[2..] == p[1..] + "::" + x;
      NoPairInside(p[1..], x);
    } else if |q| >= 2 {
      assert t[0] == q[0] && t[1] == q[0 + 1];
    } else if |p| >= 2 {
      assert t[2] == ':' && u[2] == p[0 + 1];
    } else {
      assert t[3..] == y && u[3..] == ":" + x;
      TwoColons(x);
    }
  }

  /** The same two parts with their loose colon on the other side. */
  function Moved(a: string, b: string): (string, string)
    requires LooseColon(a, b)
  {
    if EndsColon(a) then (a[..|a| - 1], ":" + b) else (a + ":", b[1..])
  }

  lemma MovedLaw(a: string, b: string, rest: string)
    requires LooseColon(a, b) && NoPair(a) && NoPair(b)
    ensures var (p, q) := Moved(a, b);
            NoPair(p) && NoPair(q) && p != a && p + "::" + (q + rest) == a + "::" + (b + rest)
  {
    if EndsColon(a) {
      var p := a[..|a| - 1];
      assert a == p + ":";
      assert p + "::" + (":" + b + rest) == p + ":" + "::" + (b + rest);
    } else {
      assert b == ":" + b[1..];
      assert a + ":" + "::" + (b[1..] + rest) == a + "::" + (":" + b[1..] + rest);
    }
  }

  lemma MarketplaceMoves(c: Change)
    requires Plain(c) && LooseColon(OrEmpty(c.marketplaceId), OrEmpty(c.pluginId))
    ensures var (n, q) := Moved(OrEmpty(c.marketplaceId), OrEmpty(c.pluginId));
            var d := c.(marketplaceId := Some(n), pluginId := Some(q));
            Plain(d) && !SameThing(c, d) && ChangeKey(c) == ChangeKey(d)
  {
    var m, p := OrEmpty(c.marketplaceId), OrEmpty(c.pluginId);
    MovedLaw(m, p, "::" + c.id);
    var (n, q) := Moved(m, p);
    hide Moved, LooseColon, NoPair;
    assert p + "::" + c.id == p + ("::" + c.id) && q + "::" + c.id == q + ("::" + c.id);
  }

  lemma PluginMoves(c: Change)
    requires Plain(c) && LooseColon(OrEmpty(c.pluginId), c.id)
    ensures var (q, y) := Moved(OrEmpty(c.pluginId), c.id);
            var d := c.(pluginId := Some(q), id := y);
            Plain(d) && !SameThing(c, d) && ChangeKey(c) == ChangeKey(d)
  {
    var p := OrEmpty(c.pluginId);
    MovedLaw(p, c.id, "");
    var (q, y) := Moved(p, c.id);
    hide Moved, LooseColon, NoPair;
    assert c.id + "" == c.id && y + "" == y;
  }

  lemma OneThing(c: Change, d: Change)
    requires Plain(c) && Plain(d) && ChangeKey(c) == ChangeKey(d)
    requires !LooseColon(OrEmpty(c.marketplaceId), OrEmpty(c.pluginId)) && !LooseColon(OrEmpty(c.pluginId), c.id)
    ensures SameThing(c, d)
  {
    hide NoPair, LooseColon;
    var m, p := OrEmpty(c.marketplaceId), OrEmpty(c.pluginId);
    var n, q := OrEmpty(d.marketplaceId), OrEmpty(d.pluginId);
    var a, b, x, y := ResourceName(c.resource), ResourceName(d.resource), m + "::" + (p + "::" + c.id), n + "::" + (q + "::" + d.id);
    NameClean(c.resource);
    NameClean(d.resource);
    NamesLead(a, x, b, y);
    NameInjective(c.resource, d.resource);
    ThreeParts(m, p, c.id, n, q, d.id);
  }

  lemma NamesLead(a: string, x: string, b: string, y: string)
    requires CleanId(a) && CleanId(b) && a + "::" + x == b + "::" + y
    ensures a == b && x == y
  {
    if |a| < |b| {
      Overrun(a, x, b, y);
    } else if |b| < |a| {
      Overrun(b, y, a, x);
    } else {
      assert (a + "::" + x)[..|a|] == a && (b + "::" + y)[..|b|] == b;
      assert (a + "::" + x)[|a| + 2..] == x && (b + "::" + y)[|b| + 2..] == y;
    }
  }

  /** Of the changes whose ids hold no pair of colons, one shares its key with a change about
      another thing exactly when a colon is loose at a joint of its key: a part ends in a
      colon and the next does not start with one, or the other way round. */
  lemma KeyAmbiguousIff(c: Change)
    requires Plain(c)
    ensures (exists d :: Plain(d) && !SameThing(c, d) && ChangeKey(c) == ChangeKey(d)) <==>
            LooseColon(OrEmpty(c.marketplaceId), OrEmpty(c.pluginId)) || LooseColon(OrEmpty(c.pluginId), c.id)
  {
    hide ChangeKey, Plain, SameThing, LooseColon, OrEmpty;
    if LooseColon(OrEmpty(c.marketplaceId), OrEmpty(c.pluginId)) {
      MarketplaceMoves(c);
    } else if LooseColon(OrEmpty(c.pluginId), c.id) {
      PluginMoves(c);
    } else {
      forall d | Plain(d) && ChangeKey(c) == ChangeKey(d) ensures SameThing(c, d) { OneThing(c, d); }
    }
  }

  /** Whatever the ids: a file of a plugin whose id ends in a colon has the key of another
      file of another plugin. */
  lemma KeysCollide(c: Change, plugin: string)
    requires c.pluginId == Some(plugin + ":")
    ensures ChangeKey(c) == ChangeKey(c.(pluginId := Some(plugin), id := ":" + c.id))
  {
    assert plugin + ":" + "::" + c.id == plugin + "::" + (":" + c.id);
  }

  ghost predicate UniqueItems(items: seq<Item>) {
    forall i, j :: 0 <= i < j < |items| ==> items[i].id != items[j].id
  }

  /** Nothing is installed twice: ids are unique, and file ids within each plugin. */
  ghost predicate Distinct(installed: Installed) {
    && UniqueItems(installed.providers) && UniqueItems(installed.marketplaces)
    && (forall i, j :: 0 <= i < j < |installed.plugins| ==> installed.plugins[i].id != installed.plugins[j].id)
    && (forall p :: p in installed.plugins ==> UniqueItems(p.files))
  }

  ghost predicate Slots(rows: seq<Row>) {
    forall i, j :: 0 <= i < j < |rows| ==> !SameSlot(rows[i], rows[j])
  }

  lemma {:induction false} ProviderSlots(items: seq<Item>, s: Snapshot)
    requires UniqueItems(items)
    ensures Slots(ProviderRows(items, s))
  {
    if items != [] {
      var init, last := items[..|items| - 1], items[|items| - 1];
      ProviderSlots(init, s);
      forall r | r in ProviderRows(init, s) ensures !SameSlot(r, ProviderRow(last, s)) {
        ProviderRowsHold(init, s, r);
      }
    }
  }

  lemma {:induction false} MarketplaceSlots(items: seq<Item>, s: Snapshot)
    requires UniqueItems(items)
    ensures Slots(MarketplaceRows(items, s))
  {
    if items != [] {
      var init, last := items[..|items| - 1], items[|items| - 1];
      MarketplaceSlots(init, s);
      forall r | r in MarketplaceRows(init, s) ensures !SameSlot(r, MarketplaceRow(last, s)) {
        MarketplaceRowsHold(init, s, r);
      }
    }
  }

  lemma {:induction false} FileSlots(p: Plugin, files: seq<Item>, s: Snapshot)
    requires UniqueItems(files)
    ensures Slots(FileRows(p, files, s))
  {
    if files != [] {
      var init, last := files[..|files| - 1], files[|files| - 1];
      FileSlots(p, init, s);
      forall r | r in FileRows(p, init, s) ensures !SameSlot(r, FileRow(p, last, s)) {
        FileRowsHold(p, init, s, r);
      }
    }
  }

  lemma SlotsConcat(a: seq<Row>, b: seq<Row>)
    requires Slots(a) && Slots(b)
    requires forall x, y :: x in a && y in b ==> !SameSlot(x, y)
    ensures Slots(a + b)
  {
    hide SameSlot;
    forall i, j | 0 <= i < j < |a + b| ensures !SameSlot((a + b)[i], (a + b)[j]) {
      if i < |a| <= j {
        assert (a + b)[i] in a && (a + b)[j] in b;
      }
    }
  }

  lemma OnePluginSlots(p: Plugin, s: Snapshot)
    requires UniqueItems(p.files)
    ensures Slots([PluginRow(p, s)] + FileRows(p, p.files, s))
  {
    FileSlots(p, p.files, s);
    forall r | r in FileRows(p, p.files, s) ensures !SameSlot(PluginRow(p, s), r) {
      FileRowsHold(p, p.files, s, r);
    }
    SlotsConcat([PluginRow(p, s)], FileRows(p, p.files, s));
  }

  lemma {:induction false} PluginSlots(plugins: seq<Plugin>, s: Snapshot)
    requires forall i, j :: 0 <= i < j < |plugins| ==> plugins[i].id != plugins[j].id
    requires forall p :: p in plugins ==> UniqueItems(p.files)
    ensures Slots(PluginRows(plugins, s))
  {
    hide UniqueItems, Slots;
    if plugins == [] {
      assert Slots([]) by {
        NoSlots();
      }
    } else {
      var init, last := plugins[..|plugins| - 1], plugins[|plugins| - 1];
      PluginSlots(init, s);
      OnePluginSlots(last, s);
      var a, b := PluginRows(init, s), [PluginRow(last, s)] + FileRows(last, last.files, s);
      forall x, y | x in a && y in b ensures !SameSlot(x, y) {
        PluginRowsHold(init, s, x);
        var p :| p in init && RowOfPlugin(p, s, x);
        FileRowsHold(last, last.files, s, y);
        assert p.id != last.id;
      }
      SlotsConcat(a, b);
    }
  }

  lemma NoSlots()
    ensures Slots([])
  {
  }

  lemma RowsSlots(installed: Installed, s: Snapshot)
    requires Distinct(installed)
    ensures Slots(Rows(installed, s))
  {
    hide UniqueItems, Slots, ProviderRows, MarketplaceRows, PluginRows, FindRemotePlugin, FindMarketplace, FindItem;
    var a, b, c := ProviderRows(installed.providers, s), MarketplaceRows(installed.marketplaces, s), PluginRows(installed.plugins, s);
    ProviderSlots(installed.providers, s);
    MarketplaceSlots(installed.marketplaces, s);
    PluginSlots(installed.plugins, s);
    forall r | r in a ensures r.resource == LlmProvider {
      ProviderRowsHold(installed.providers, s, r);
    }
    forall r | r in b ensures r.resource == MarketplaceResource {
      MarketplaceRowsHold(installed.marketplaces, s, r);
    }
    forall r | r in c ensures r.resource == PluginResource || r.resource == ConfigItem {
      PluginRowsHold(installed.plugins, s, r);
    }
    SlotsConcat(a, b);
    SlotsConcat(a + b, c);
  }

  ghost predicate UniqueKeys(changes: seq<Change>) {
    forall i, j :: 0 <= i < j < |changes| ==> ChangeKey(changes[i]) != ChangeKey(changes[j])
  }

  ghost predicate AllClean(changes: seq<Change>) {
    forall c :: c in changes ==> CleanChange(c)
  }

  lemma {:induction false} SlotsGiveKeys(rows: seq<Row>, at: int)
    requires Slots(rows) && AllClean(ChangesOf(rows, at))
    requires forall r :: r in rows ==> (r.resource.ConfigItem? <==> r.pluginId.Some?)
    ensures UniqueKeys(ChangesOf(rows, at))
  {
    hide ChangeKey, CleanChange, Queued, SameSlot;
    if rows != [] {
      var n := |rows| - 1;
      var init := ChangesOf(rows[..n], at);
      assert forall c :: c in init ==> c in ChangesOf(rows, at);
      SlotsGiveKeys(rows[..n], at);
      QueuedOne(rows[n], at);
      if Queued(rows[n], at) != [] {
        var c := Queued(rows[n], at)[0];
        assert c in ChangesOf(rows, at);
        forall d | d in init ensures ChangeKey(d) != ChangeKey(c) {
          ChangesHold(rows[..n], at, d);
          var r :| r in rows[..n] && Queued(r, at) == [d];
          KeysApart(r, rows[n], d, c, at);
        }
      }
    }
  }

  lemma KeysApart(r: Row, q: Row, d: Change, c: Change, at: int)
    requires !SameSlot(r, q) && Queued(r, at) == [d] && Queued(q, at) == [c] && CleanChange(c) && CleanChange(d)
    requires (r.resource.ConfigItem? <==> r.pluginId.Some?) && (q.resource.ConfigItem? <==> q.pluginId.Some?)
    ensures ChangeKey(d) != ChangeKey(c)
  {
    hide ChangeKey, CleanChange, Queued;
    QueuedOne(r, at);
    QueuedOne(q, at);
    if ChangeKey(d) == ChangeKey(c) {
      ChangeKeyInjective(d, c);
      assert false;
    }
  }

  lemma DiffKeysUnique(sync: Sync)
    requires Distinct(sync.installed) && AllClean(DiffOf(sync))
    ensures UniqueKeys(DiffOf(sync))
  {
    hide Slots, Rows, UniqueKeys, AllClean, FindRemotePlugin, FindItem, FindMarketplace;
    var rows := Rows(sync.installed, sync.snapshot);
    RowsSlots(sync.installed, sync.snapshot);
    forall r | r in rows ensures r.resource.ConfigItem? <==> r.pluginId.Some? {
      RowsHold(sync.installed, sync.snapshot, r);
    }
    SlotsGiveKeys(rows, sync.at);
  }

  lemma {:induction false} WithoutUnique(changes: seq<Change>, keys: set<string>)
    requires UniqueKeys(changes)
    ensures UniqueKeys(Without(changes, keys))
  {
    hide ChangeKey;
    if changes != [] {
      var init, last := changes[..|changes| - 1], changes[|changes| - 1];
      WithoutUnique(init, keys);
      forall c | c in Without(init, keys) ensures ChangeKey(c) != ChangeKey(last) {
        WithoutHolds(init, keys, c);
      }
    }
  }

  lemma MergeUnique(previous: seq<Change>, next: seq<Change>)
    requires UniqueKeys(previous) && UniqueKeys(next)
    ensures UniqueKeys(MergePending(previous, next))
  {
    hide ChangeKey, Without;
    WithoutUnique(previous, KeysOf(next));
    forall c | c in Without(previous, KeysOf(next)) ensures ChangeKey(c) !in KeysOf(next) {
      WithoutHolds(previous, KeysOf(next), c);
    }
  }

  /** Over any sequence of syncs of distinct installations with clean ids, the pending
      changes have each key once. */
  lemma {:induction false} PendingUnique(syncs: seq<Sync>)
    requires forall i :: 0 <= i < |syncs| ==> Distinct(syncs[i].installed) && AllClean(DiffOf(syncs[i]))
    ensures UniqueKeys(Pending(syncs))
  {
    hide DiffOf, ChangeKey, Distinct, AllClean, MergePending;
    if syncs != [] {
      var n := |syncs| - 1;
      PendingUnique(syncs[..n]);
      DiffKeysUnique(syncs[n]);
      MergeUnique(Pending(syncs[..n]), DiffOf(syncs[n]));
    }
  }

  // What colliding keys do

  lemma DiffPends(syncs: seq<Sync>, last: Sync, c: Change)
    ensures c in Pending(syncs + [last]) <==>
            c in DiffOf(last) || (c in Pending(syncs) && ChangeKey(c) !in KeysOf(DiffOf(last)))
  {
    hide DiffOf, ChangeKey, KeysOf, Newest, Pending;
    assert (syncs + [last])[..|syncs|] == syncs;
    PendingIsNewest(syncs + [last], c);
    PendingIsNewest(syncs, c);
    NewestSnoc(syncs + [last], c);
  }

  /** The change a file's row queues. */
  lemma FilePends(sync: Sync, p: Plugin, f: Item) returns (c: Change)
    requires p in sync.installed.plugins && f in p.files
    requires var r := FileRow(p, f, sync.snapshot); !Current(r.installed, r.remote)
    ensures c in DiffOf(sync) && c.resource.ConfigItem? && c.pluginId == Some(p.id) && c.id == f.id
    ensures c.marketplaceId == FileRow(p, f, sync.snapshot).marketplaceId
  {
    hide Queued, Rows, ChangesOf, FindRemotePlugin, FindItem, Current;
    var r := FileRow(p, f, sync.snapshot);
    assert RowOfPlugin(p, sync.snapshot, r);
    RowsHold(sync.installed, sync.snapshot, r);
    QueuedOne(r, sync.at);
    c := Queued(r, sync.at)[0];
    ChangesHold(Rows(sync.installed, sync.snapshot), sync.at, c);
  }

  /** A file of a plugin whose id ends in a colon, and the file of another plugin that
      shares its key, both out of date: whatever was pending before, the pending changes
      then hold two changes of one key about two things. */
  lemma CollidingFilesPend(syncs: seq<Sync>, last: Sync, p: Plugin, f: Item, q: Plugin, g: Item)
    requires p in last.installed.plugins && f in p.files && q in last.installed.plugins && g in q.files
    requires p.id == q.id + ":" && g.id == ":" + f.id
    requires var r, t := FileRow(p, f, last.snapshot), FileRow(q, g, last.snapshot);
      !Current(r.installed, r.remote) && !Current(t.installed, t.remote) && r.marketplaceId == t.marketplaceId
    ensures !UniqueKeys(Pending(syncs + [last]))
    ensures exists c, d :: c in Pending(syncs + [last]) && d in Pending(syncs + [last]) &&
              ChangeKey(c) == ChangeKey(d) && !SameThing(c, d) && c.id == f.id && d.id == g.id
  {
    hide DiffOf, KeysOf, Pending, FileRow;
    var c := FilePends(last, p, f);
    var d := FilePends(last, q, g);
    KeysCollide(c, q.id);
    assert ChangeKey(c) == ChangeKey(d);
    hide ChangeKey;
    DiffPends(syncs, last, c);
    DiffPends(syncs, last, d);
    assert !SameThing(c, d);
    var pending := Pending(syncs + [last]);
    var i :| 0 <= i < |pending| && pending[i] == c;
    var j :| 0 <= j < |pending| && pending[j] == d;
  }

  /** A pending change is dropped by a diff that no longer holds it exactly when that diff
      has a change of its key, about whatever thing. */
  lemma PendingDropped(syncs: seq<Sync>, last: Sync, c: Change)
    requires c in Pending(syncs) && c !in DiffOf(last)
    ensures c !in Pending(syncs + [last]) <==> exists d :: d in DiffOf(last) && ChangeKey(d) == ChangeKey(c)
  {
    hide DiffOf, ChangeKey, Pending;
    DiffPends(syncs, last, c);
  }

  /** A plugin with one file, and the sync of an installation when nothing is offered. */
  function OneFile(plugin: string, file: string): Plugin {
    Plugin(plugin, None, None, [Item(file, None)])
  }

  function Unoffered(plugins: seq<Plugin>, at: int): Sync {
    Sync(Installed([], [], plugins), Snapshot(map[], []), at)
  }

  lemma NotOffered(p: Plugin, f: Item, at: int)
    requires p.marketplaceId.None?
    ensures var r := FileRow(p, f, Unoffered([], at).snapshot); r.remote.None? && r.marketplaceId.None?
  {
  }

  lemma OneFileDistinct(p: Plugin, q: Plugin, at: int)
    requires p.id != q.id && |p.files| == |q.files| == 1
    ensures Distinct(Unoffered([p, q], at).installed)
  {
  }

  /** Nothing is installed twice, and still the pending changes hold a key twice. */
  lemma DuplicatePends(plugin: string, file: string, at: int)
    ensures var sync := Unoffered([OneFile(plugin + ":", file), OneFile(plugin, ":" + file)], at);
            Distinct(sync.installed) && !UniqueKeys(Pending([sync]))
  {
    var p, q := OneFile(plugin + ":", file), OneFile(plugin, ":" + file);
    var sync := Unoffered([p, q], at);
    NotOffered(p, p.files[0], at);
    NotOffered(q, q.files[0], at);
    hide Pending, UniqueKeys, FileRow, Distinct;
    OneFileDistinct(p, q, at);
    assert [] + [sync] == [sync];
    CollidingFilesPend([], sync, p, p.files[0], q, q.files[0]);
  }

  /** What is pending of one plugin's file is forgotten at a sync that says nothing of it. */
  lemma CollisionForgets(plugin: string, file: string, at: int, later: int)
    ensures var first, second := Unoffered([OneFile(plugin + ":", file)], at), Unoffered([OneFile(plugin, ":" + file)], later);
            exists c :: c in Pending([first]) && c !in Pending([first, second]) &&
              forall d :: d in DiffOf(second) ==> !SameThing(c, d)
  {
    var p, q := OneFile(plugin + ":", file), OneFile(plugin, ":" + file);
    var first, second := Unoffered([p], at), Unoffered([q], later);
    NotOffered(p, p.files[0], at);
    NotOffered(q, q.files[0], later);
    assert [] + [first] == [first] && [first] + [second] == [first, second];
    hide DiffOf, Pending, FileRow, KeysOf;
    var c := FilePends(first, p, p.files[0]);
    var d := FilePends(second, q, q.files[0]);
    KeysCollide(c, plugin);
    assert ChangeKey(d) == ChangeKey(c);
    hide ChangeKey;
    DiffPends([], first, c);
    forall d' | d' in DiffOf(second) ensures !SameThing(c, d') && d' != c { OnlyOf(second, q, d', c); }
    PendingDropped([first], second, c);
  }

  /** What a sync of one plugin alone says is about that plugin. */
  lemma OnlyOf(sync: Sync, q: Plugin, d: Change, c: Change)
    requires sync.installed == Installed([], [], [q]) && d in DiffOf(sync)
    requires c.resource.ConfigItem? && c.pluginId.Some? && c.pluginId.value != q.id
    ensures !SameThing(c, d) && d != c
  {
    hide Queued, Rows, ChangesOf, FindRemotePlugin, FindItem;
    ChangesHold(Rows(sync.installed, sync.snapshot), sync.at, d);
    var r :| r in Rows(sync.installed, sync.snapshot) && Queued(r, sync.at) == [d];
    RowsHold(sync.installed, sync.snapshot, r);
    QueuedOne(r, sync.at);
  }
}
