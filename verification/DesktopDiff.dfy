/** The diff between what a desktop has installed from the cloud and what the cloud offers
    (apps/server/src/desktop-cloud-sync.ts), and the list of pending changes it feeds. */
module DesktopDiff {
  import opened Strings
  import opened Wrappers

  datatype Item = Item(id: string, updatedAt: Option<string>)

  datatype Plugin = Plugin(id: string, marketplaceId: Option<string>, updatedAt: Option<string>, files: seq<Item>)

  /** What a workspace imported. */
  datatype Installed = Installed(providers: seq<Item>, marketplaces: seq<Item>, plugins: seq<Plugin>)

  datatype RemoteItem = RemoteItem(id: string, lastUpdatedAt: string)

  datatype RemotePlugin = RemotePlugin(id: string, lastUpdatedAt: string, items: seq<RemoteItem>)

  datatype Marketplace = Marketplace(id: string, lastUpdatedAt: string, plugins: seq<RemotePlugin>)

  /** What the cloud offers: marketplaces in the order of their record. */
  datatype Snapshot = Snapshot(providers: map<string, string>, marketplaces: seq<Marketplace>)

  datatype ChangeKind = New | Modified | Removed

  datatype Resource = LlmProvider | MarketplaceResource | PluginResource | ConfigItem

  datatype Change = Change(
    id: string,
    kind: ChangeKind,
    resource: Resource,
    marketplaceId: Option<string>,
    pluginId: Option<string>,
    previous: Option<string>,
    next: Option<string>,
    queuedAt: int)

  /** One installed thing beside its remote timestamp, as handed to queueInstalledChange. */
  datatype Row = Row(
    id: string,
    resource: Resource,
    marketplaceId: Option<string>,
    pluginId: Option<string>,
    installed: Option<string>,
    remote: Option<string>)

  predicate Truthy(t: Option<string>) {
    t.Some? && t.value != ""
  }

  function FindMarketplace(marketplaces: seq<Marketplace>, id: string): (r: Option<Marketplace>)
    ensures r.Some? ==> r.value in marketplaces && r.value.id == id
    ensures r.None? ==> forall m :: m in marketplaces ==> m.id != id
  {
    if marketplaces == [] then None
    else if marketplaces[0].id == id then Some(marketplaces[0])
    else FindMarketplace(marketplaces[1..], id)
  }

  function FindPlugin(plugins: seq<RemotePlugin>, id: string): (r: Option<RemotePlugin>)
    ensures r.Some? ==> r.value in plugins && r.value.id == id
    ensures r.None? ==> forall p :: p in plugins ==> p.id != id
  {
    if plugins == [] then None
    else if plugins[0].id == id then Some(plugins[0])
    else FindPlugin(plugins[1..], id)
  }

  function FindItem(items: seq<RemoteItem>, id: string): (r: Option<RemoteItem>)
    ensures r.Some? ==> r.value in items && r.value.id == id
    ensures r.None? ==> forall i :: i in items ==> i.id != id
  {
    if items == [] then None
    else if items[0].id == id then Some(items[0])
    else FindItem(items[1..], id)
  }

  datatype Found = Found(marketplaceId: string, plugin: RemotePlugin)

  function FindAnywhere(marketplaces: seq<Marketplace>, id: string): Option<Found> {
    if marketplaces == [] then None
    else
      var plugin := FindPlugin(marketplaces[0].plugins, id);
      if plugin.Some? then Some(Found(marketplaces[0].id, plugin.value))
      else FindAnywhere(marketplaces[1..], id)
  }

  /** findRemotePlugin */
  function FindRemotePlugin(s: Snapshot, marketplaceId: Option<string>, pluginId: string): Option<Found> {
    var preferred := if marketplaceId.Some? then Trim(marketplaceId.value) else "";
    var marketplace := if preferred == "" then None else FindMarketplace(s.marketplaces, preferred);
    var plugin := if marketplace.Some? then FindPlugin(marketplace.value.plugins, pluginId) else None;
    if plugin.Some? then Some(Found(preferred, plugin.value)) else FindAnywhere(s.marketplaces, pluginId)
  }

  function ProviderRow(p: Item, s: Snapshot): Row {
    Row(p.id, LlmProvider, None, None, p.updatedAt, if p.id in s.providers then Some(s.providers[p.id]) else None)
  }

  function MarketplaceRow(m: Item, s: Snapshot): Row {
    var remote := FindMarketplace(s.marketplaces, m.id);
    Row(m.id, MarketplaceResource, None, None, m.updatedAt, if remote.Some? then Some(remote.value.lastUpdatedAt) else None)
  }

  /** The row of a plugin, and of one of its files, once the remote plugin is found. */
  function PluginAgainst(p: Plugin, remote: Option<Found>): Row {
    Row(p.id, PluginResource, if remote.Some? then Some(remote.value.marketplaceId) else p.marketplaceId, None,
        p.updatedAt, if remote.Some? then Some(remote.value.plugin.lastUpdatedAt) else None)
  }

  function FileAgainst(p: Plugin, file: Item, remote: Option<Found>): Row {
    var item := if remote.Some? then FindItem(remote.value.plugin.items, file.id) else None;
    Row(file.id, ConfigItem, if remote.Some? then Some(remote.value.marketplaceId) else p.marketplaceId, Some(p.id),
        file.updatedAt, if item.Some? then Some(item.value.lastUpdatedAt) else None)
  }

  function PluginRow(p: Plugin, s: Snapshot): Row {
    PluginAgainst(p, FindRemotePlugin(s, p.marketplaceId, p.id))
  }

  function FileRow(p: Plugin, file: Item, s: Snapshot): Row {
    FileAgainst(p, file, FindRemotePlugin(s, p.marketplaceId, p.id))
  }

  function FileRows(p: Plugin, files: seq<Item>, s: Snapshot): seq<Row> {
    if files == [] then [] else FileRows(p, files[..|files| - 1], s) + [FileRow(p, files[|files| - 1], s)]
  }

  function PluginRows(plugins: seq<Plugin>, s: Snapshot): seq<Row> {
    if plugins == [] then []
    else
      var p := plugins[|plugins| - 1];
      PluginRows(plugins[..|plugins| - 1], s) + ([PluginRow(p, s)] + FileRows(p, p.files, s))
  }

  function ProviderRows(items: seq<Item>, s: Snapshot): seq<Row> {
    if items == [] then [] else ProviderRows(items[..|items| - 1], s) + [ProviderRow(items[|items| - 1], s)]
  }

  function MarketplaceRows(items: seq<Item>, s: Snapshot): seq<Row> {
    if items == [] then [] else MarketplaceRows(items[..|items| - 1], s) + [MarketplaceRow(items[|items| - 1], s)]
  }

  function Rows(installed: Installed, s: Snapshot): seq<Row> {
    ProviderRows(installed.providers, s) + MarketplaceRows(installed.marketplaces, s) + PluginRows(installed.plugins, s)
  }

  /** queueInstalledChange */
  function Queued(row: Row, at: int): seq<Change> {
    if !Truthy(row.remote) then
      [Change(row.id, Removed, row.resource, row.marketplaceId, row.pluginId, row.installed, None, at)]
    else if !Truthy(row.installed) then
      [Change(row.id, New, row.resource, row.marketplaceId, row.pluginId, None, row.remote, at)]
    else if row.installed != row.remote then
      [Change(row.id, Modified, row.resource, row.marketplaceId, row.pluginId, row.installed, row.remote, at)]
    else []
  }

  function ChangesOf(rows: seq<Row>, at: int): seq<Change> {
    if rows == [] then [] else ChangesOf(rows[..|rows| - 1], at) + Queued(rows[|rows| - 1], at)
  }

  function Diff(installed: Installed, s: Snapshot, at: int): seq<Change> {
    ChangesOf(Rows(installed, s), at)
  }

  lemma {:induction false} ChangesConcat(a: seq<Row>, b: seq<Row>, at: int)
    ensures ChangesOf(a + b, at) == ChangesOf(a, at) + ChangesOf(b, at)
  {
    if b == [] {
      assert a + b == a;
    } else {
      var n := |b| - 1;
      assert (a + b)[..|a + b| - 1] == a + b[..n];
      ChangesConcat(a, b[..n], at);
    }
  }

  /** diffInstalledCloudResources: nested loops pushing onto one list. */
  method DiffInstalled(installed: Installed, s: Snapshot, at: int) returns (changes: seq<Change>)
    ensures changes == Diff(installed, s, at)
  {
    hide Queued, ProviderRow, MarketplaceRow, PluginRow, FileRow, ChangesOf;
    changes := [];
    Starts(s, at);
    for i := 0 to |installed.providers|
      invariant changes == ChangesOf(ProviderRows(installed.providers[..i], s), at)
    {
      changes := changes + Queued(ProviderRow(installed.providers[i], s), at);
      ProvidersSnoc(installed.providers, i, s, at);
    }
    assert installed.providers[..|installed.providers|] == installed.providers;
    ghost var before := ProviderRows(installed.providers, s);
    for i := 0 to |installed.marketplaces|
      invariant changes == ChangesOf(before, at) + ChangesOf(MarketplaceRows(installed.marketplaces[..i], s), at)
    {
      changes := changes + Queued(MarketplaceRow(installed.marketplaces[i], s), at);
      MarketplacesSnoc(installed.marketplaces, i, s, at);
    }
    assert installed.marketplaces[..|installed.marketplaces|] == installed.marketplaces;
    ChangesConcat(before, MarketplaceRows(installed.marketplaces, s), at);
    before := before + MarketplaceRows(installed.marketplaces, s);
    for i := 0 to |installed.plugins|
      invariant changes == ChangesOf(before, at) + ChangesOf(PluginRows(installed.plugins[..i], s), at)
    {
      var plugin := installed.plugins[i];
      var queued := DiffPlugin(plugin, s, at);
      changes := changes + queued;
      assert installed.plugins[..i + 1][..i] == installed.plugins[..i];
      ChangesConcat(PluginRows(installed.plugins[..i], s), [PluginRow(plugin, s)] + FileRows(plugin, plugin.files, s), at);
    }
    assert installed.plugins[..|installed.plugins|] == installed.plugins;
    ChangesConcat(before, PluginRows(installed.plugins, s), at);
  }

  lemma Starts(s: Snapshot, at: int)
    ensures ChangesOf([], at) == []
    ensures ProviderRows([], s) == MarketplaceRows([], s) == PluginRows([], s) == []
  {
  }

  lemma ProvidersSnoc(items: seq<Item>, i: nat, s: Snapshot, at: int)
    requires i < |items|
    ensures ChangesOf(ProviderRows(items[..i + 1], s), at) ==
            ChangesOf(ProviderRows(items[..i], s), at) + Queued(ProviderRow(items[i], s), at)
  {
    hide Queued, ProviderRow;
    assert items[..i + 1][..i] == items[..i];
    var rows := ProviderRows(items[..i], s);
    assert (rows + [ProviderRow(items[i], s)])[..|rows|] == rows;
  }

  lemma MarketplacesSnoc(items: seq<Item>, i: nat, s: Snapshot, at: int)
    requires i < |items|
    ensures ChangesOf(MarketplaceRows(items[..i + 1], s), at) ==
            ChangesOf(MarketplaceRows(items[..i], s), at) + Queued(MarketplaceRow(items[i], s), at)
  {
    hide Queued, MarketplaceRow;
    assert items[..i + 1][..i] == items[..i];
    var rows := MarketplaceRows(items[..i], s);
    assert (rows + [MarketplaceRow(items[i], s)])[..|rows|] == rows;
  }

  method DiffPlugin(plugin: Plugin, s: Snapshot, at: int) returns (changes: seq<Change>)
    ensures changes == ChangesOf([PluginRow(plugin, s)] + FileRows(plugin, plugin.files, s), at)
  {
    hide Queued, FindRemotePlugin, PluginAgainst, FileAgainst, FileRows, ChangesOf;
    var remote := FindRemotePlugin(s, plugin.marketplaceId, plugin.id);
    changes := Queued(PluginAgainst(plugin, remote), at);
    ghost var first := changes;
    NoFiles(plugin, s, at);
    for j := 0 to |plugin.files|
      invariant changes == first + ChangesOf(FileRows(plugin, plugin.files[..j], s), at)
    {
      changes := changes + Queued(FileAgainst(plugin, plugin.files[j], remote), at);
      FileRowsSnoc(plugin, plugin.files, j, s, at);
    }
    assert plugin.files[..|plugin.files|] == plugin.files;
    OneRow(PluginRow(plugin, s), at);
    ChangesConcat([PluginRow(plugin, s)], FileRows(plugin, plugin.files, s), at);
  }

  lemma NoFiles(p: Plugin, s: Snapshot, at: int)
    ensures ChangesOf(FileRows(p, [], s), at) == []
  {
  }

  lemma FileRowsSnoc(p: Plugin, files: seq<Item>, j: nat, s: Snapshot, at: int)
    requires j < |files|
    ensures ChangesOf(FileRows(p, files[..j + 1], s), at) ==
            ChangesOf(FileRows(p, files[..j], s), at) + Queued(FileRow(p, files[j], s), at)
  {
    hide Queued, FileRow;
    assert files[..j + 1][..j] == files[..j];
    var rows := FileRows(p, files[..j], s);
    assert (rows + [FileRow(p, files[j], s)])[..|rows|] == rows;
  }

  lemma OneRow(row: Row, at: int)
    ensures ChangesOf([row], at) == Queued(row, at)
  {
    hide Queued;
    assert [row][..0] == [] && ChangesOf([], at) == [];
  }

  // Pending changes

  function ResourceName(r: Resource): string {
    match r
    case LlmProvider => "llmProvider"
    case MarketplaceResource => "marketplace"
    case PluginResource => "plugin"
    case ConfigItem => "configItem"
  }

  function OrEmpty(o: Option<string>): string {
    if o.Some? then o.value else ""
  }

  /** changeKey */
  function ChangeKey(c: Change): string {
    ResourceName(c.resource) + "::" + (OrEmpty(c.marketplaceId) + "::" + (OrEmpty(c.pluginId) + "::" + c.id))
  }

  function KeysOf(changes: seq<Change>): (keys: set<string>) {
    set c | c in changes :: ChangeKey(c)
  }

  function Without(changes: seq<Change>, keys: set<string>): seq<Change> {
    if changes == [] then []
    else
      var last := changes[|changes| - 1];
      Without(changes[..|changes| - 1], keys) + (if ChangeKey(last) in keys then [] else [last])
  }

  /** mergePendingChanges */
  function MergePending(previous: seq<Change>, next: seq<Change>): seq<Change> {
    if next == [] then previous else Without(previous, KeysOf(next)) + next
  }

  /** A sync of one account: what was installed, the snapshot, and the time. */
  datatype Sync = Sync(installed: Installed, snapshot: Snapshot, at: int)

  function DiffOf(sync: Sync): seq<Change> {
    Diff(sync.installed, sync.snapshot, sync.at)
  }

  /** The pending changes of an account after a sequence of syncs. */
  function Pending(syncs: seq<Sync>): seq<Change> {
    if syncs == [] then [] else MergePending(Pending(syncs[..|syncs| - 1]), DiffOf(syncs[|syncs| - 1]))
  }

  // Applying changes

  function FindChange(changes: seq<Change>, resource: Resource, pluginId: Option<string>, id: string): (r: Option<Change>)
    ensures r.Some? ==> r.value in changes && r.value.resource == resource && r.value.pluginId == pluginId && r.value.id == id
    ensures r.None? ==> forall c :: c in changes ==> !(c.resource == resource && c.pluginId == pluginId && c.id == id)
  {
    if changes == [] then None
    else if changes[0].resource == resource && changes[0].pluginId == pluginId && changes[0].id == id then Some(changes[0])
    else FindChange(changes[1..], resource, pluginId, id)
  }

  /** Items moved to the timestamp their change gives, without those removed. */
  function MovedItems(items: seq<Item>, changes: seq<Change>, resource: Resource, pluginId: Option<string>): seq<Item> {
    if items == [] then []
    else
      var c := FindChange(changes, resource, pluginId, items[0].id);
      var rest := MovedItems(items[1..], changes, resource, pluginId);
      if c.None? then [items[0]] + rest
      else if c.value.kind.Removed? then rest
      else [items[0].(updatedAt := c.value.next)] + rest
  }

  function MovedPlugins(plugins: seq<Plugin>, changes: seq<Change>): seq<Plugin> {
    if plugins == [] then []
    else
      var p := plugins[0];
      var c := FindChange(changes, PluginResource, None, p.id);
      var moved := p.(files := MovedItems(p.files, changes, ConfigItem, Some(p.id)));
      var rest := MovedPlugins(plugins[1..], changes);
      if c.None? then [moved] + rest
      else if c.value.kind.Removed? then rest
      else [moved.(updatedAt := c.value.next)] + rest
  }

  function Applied(installed: Installed, changes: seq<Change>): Installed {
    Installed(MovedItems(installed.providers, changes, LlmProvider, None),
              MovedItems(installed.marketplaces, changes, MarketplaceResource, None),
              MovedPlugins(installed.plugins, changes))
  }
}
