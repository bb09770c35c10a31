/**
 * The node explorer page (`PageNodeExplorer`): the persisted set of
 * expanded accordion sections, the persisted node-type prefix, and the
 * prefix menu of `NodeExplorerFilters` with its node counts.
 */
module PageNodeExplorer {
  import opened Wrappers
  import opened Text
  import opened OrderedSet
  import opened Hooks

  const PrefixKey := "aiida-node-explorer-type-prefix"
  const FieldUUIDKey := "aiida-node-explorer-field-uuid"
  const ExpandedKey := "aiida-node-explorer-expanded"

  /** The defaults of the persisted settings: only the introduction is
      expanded, and the prefix selects every node. */
  const DefaultExpanded: seq<string> := ["intro"]
  const DefaultPrefix := ""

  /** The page's three persisted settings, each under its own key: the
      node-type prefix (default every node), the uuid field (default none)
      and the expanded sections (default only the introduction). */
  method OpenSettings(storage: Storage, prefixCodec: Codec<string>, uuidCodec: Codec<Option<string>>,
                      tabsCodec: Codec<seq<string>>)
    returns (nodePrefix: Setting<string>, nodeFieldsUUID: Setting<Option<string>>,
             expandedTabs: Setting<seq<string>>)
    ensures nodePrefix.storage == storage && nodePrefix.key == PrefixKey
            && nodePrefix.value == InitialValue(storage.GetItem(PrefixKey), DefaultPrefix, prefixCodec)
    ensures nodeFieldsUUID.storage == storage && nodeFieldsUUID.key == FieldUUIDKey
            && nodeFieldsUUID.value == InitialValue(storage.GetItem(FieldUUIDKey), None, uuidCodec)
    ensures expandedTabs.storage == storage && expandedTabs.key == ExpandedKey
            && expandedTabs.value == InitialValue(storage.GetItem(ExpandedKey), DefaultExpanded, tabsCodec)
    ensures nodePrefix.key != nodeFieldsUUID.key && nodePrefix.key != expandedTabs.key
            && nodeFieldsUUID.key != expandedTabs.key
  {
    nodePrefix := new Setting(storage, PrefixKey, DefaultPrefix, prefixCodec);
    nodeFieldsUUID := new Setting(storage, FieldUUIDKey, None, uuidCodec);
    expandedTabs := new Setting(storage, ExpandedKey, DefaultExpanded, tabsCodec);
  }

  // -----------------------------------------------------------------------
  // expanded sections

  /** The sections `changeExpanded(tab, expanded)` stores: the current
      list as a set in insertion order, with `tab` added or deleted. */
  function Expanded(tabs: seq<string>, tab: string, expanded: bool): seq<string> {
    var current := FromList(tabs);
    if expanded then Add(current, tab) else Delete(current, tab)
  }

  /** `tab` is in the new list exactly when it was expanded; every other
      tab is kept as it was, and no tab appears twice. */
  lemma ExpandedMembers(tabs: seq<string>, tab: string, expanded: bool)
    ensures tab in Expanded(tabs, tab, expanded) <==> expanded
    ensures forall t :: t != tab ==> (t in Expanded(tabs, tab, expanded) <==> t in tabs)
    ensures NoDuplicates(Expanded(tabs, tab, expanded))
  {
    FromListSpec(tabs);
    AddSpec(FromList(tabs), tab);
    DeleteMembers(FromList(tabs), tab);
    DeleteNoDuplicates(FromList(tabs), tab);
  }

  /** On a duplicate-free list: expanding appends the tab unless it is
      there already (then nothing changes); collapsing removes it from its
      place and keeps the others in order. */
  lemma ExpandedOrder(tabs: seq<string>, tab: string)
    requires NoDuplicates(tabs)
    ensures Expanded(tabs, tab, true) == if tab in tabs then tabs else tabs + [tab]
    ensures forall k :: 0 <= k < |tabs| && tabs[k] == tab ==>
              Expanded(tabs, tab, false) == tabs[..k] + tabs[k + 1..]
    ensures tab !in tabs ==> Expanded(tabs, tab, false) == tabs
  {
    FromListIdentity(tabs);
    forall k | 0 <= k < |tabs| && tabs[k] == tab
      ensures Expanded(tabs, tab, false) == tabs[..k] + tabs[k + 1..]
    {
      DeleteAt(tabs, k);
    }
    if tab !in tabs {
      DeleteAbsent(tabs, tab);
    }
  }

  /** Expanding or collapsing the same tab twice changes nothing more. */
  lemma ExpandedIdempotent(tabs: seq<string>, tab: string, expanded: bool)
    ensures Expanded(Expanded(tabs, tab, expanded), tab, expanded) == Expanded(tabs, tab, expanded)
  {
    var once := Expanded(tabs, tab, expanded);
    ExpandedMembers(tabs, tab, expanded);
    ExpandedOrder(once, tab);
  }

  /** `changeExpanded(tab, expanded)` on the persisted list of expanded
      sections. */
  method ChangeExpanded(expandedTabs: Setting<seq<string>>, tab: string, expanded: bool) returns (persisted: bool)
    modifies expandedTabs, expandedTabs.storage`items
    ensures expandedTabs.value == Expanded(old(expandedTabs.value), tab, expanded)
    ensures persisted == expandedTabs.storage.writable
    ensures expandedTabs.storage.items ==
              if persisted then old(expandedTabs.storage.items)[expandedTabs.key := expandedTabs.codec.encode(expandedTabs.value)]
              else old(expandedTabs.storage.items)
  {
    var tabs := FromList(expandedTabs.value);
    if expanded {
      tabs := Add(tabs, tab);
    } else {
      tabs := Delete(tabs, tab);
    }
    persisted := expandedTabs.SetValue(Value(tabs));
  }

  /** With nothing usable stored, only the introduction starts expanded. */
  lemma DefaultSections(read: Read, codec: Codec<seq<string>>, section: string)
    requires !(read.Item? && read.text != "" && codec.decode(read.text).Some?)
    ensures section in InitialValue(read, DefaultExpanded, codec) <==> section == "intro"
  {
  }

  // -----------------------------------------------------------------------
  // node-type prefixes

  /** The prefixes offered without statistics. */
  const DefaultPrefixList: seq<string> := [
    "", "data.", "data.array.", "data.bool.", "data.cif.", "data.code.", "data.dict.",
    "data.float.", "data.folder.", "data.int.", "data.list.", "data.numeric.",
    "data.orbital.", "data.remote.", "data.structure.", "process.",
    "process.calculation.", "process.workflow."
  ]

  /** `nodePrefixesDefault`: those prefixes, all without a count. */
  const NodePrefixesDefault: map<string, Option<int>> := map p | p in DefaultPrefixList :: None

  /** The group prefixes that never show a count. */
  const GroupPrefixes: set<string> := {"data.", "process.", "process.calculation.", "process.workflow."}

  /** The statistics response: the total node count and a count per type,
      held in an object the overlay writes into. */
  class NodeStatistics {
    const total: int
    var types: map<string, Option<int>>

    constructor (total: int, types: map<string, Option<int>>)
      ensures this.total == total && this.types == types
    {
      this.total := total;
      this.types := types;
    }
  }

  /** The counts after the overlay: the empty prefix has the total, the
      group prefixes have no count, and every other type keeps its count. */
  function Overlay(types: map<string, Option<int>>, total: int): (r: map<string, Option<int>>)
    ensures r.Keys == types.Keys + {""} + GroupPrefixes
    ensures r[""] == Some(total)
    ensures forall p :: p in GroupPrefixes ==> r[p] == None
    ensures forall p :: p in types && p != "" && p !in GroupPrefixes ==> r[p] == types[p]
  {
    types["" := Some(total)]["data." := None]["process." := None]
      ["process.calculation." := None]["process.workflow." := None]
  }

  /** Running the overlay again (every render does) changes nothing. */
  lemma OverlayIdempotent(types: map<string, Option<int>>, total: int)
    ensures Overlay(Overlay(types, total), total) == Overlay(types, total)
  {
  }

  /** The prefix menu's entries: the defaults without statistics; with
      statistics, the overlaid type counts, written into the response's own
      `types` object. */
  method NodePrefixes(stats: NodeStatistics?) returns (prefixes: map<string, Option<int>>)
    modifies stats
    ensures stats == null ==> prefixes == NodePrefixesDefault
    ensures stats != null ==> stats.types == Overlay(old(stats.types), stats.total) && prefixes == stats.types
  {
    prefixes := NodePrefixesDefault;
    if stats != null {
      stats.types := stats.types["" := Some(stats.total)];
      stats.types := stats.types["data." := None];
      stats.types := stats.types["process." := None];
      stats.types := stats.types["process.calculation." := None];
      stats.types := stats.types["process.workflow." := None];
      prefixes := stats.types;
    }
  }

  /** The default menu offers the 18 listed prefixes, none with a count,
      and the default selection is among them. */
  lemma DefaultPrefixes()
    ensures |DefaultPrefixList| == 18
    ensures forall p :: p in NodePrefixesDefault <==> p in DefaultPrefixList
    ensures forall p :: p in NodePrefixesDefault ==> NodePrefixesDefault[p] == None
    ensures DefaultPrefix in NodePrefixesDefault
  {
    assert DefaultPrefixList[0] == DefaultPrefix;
  }

  /** The text of a menu entry: the prefix alone without a count; with a
      count, the prefix (`ALL` for the empty one) and the count in brackets. */
  function MenuLabel(name: string, count: Option<int>): string {
    if count.None? then name else OrElse(name, "ALL") + " (" + IntToString(count.value) + ")"
  }

  /** An uncounted entry is the prefix alone; a counted entry reads
      `shown (n)`, where `shown` is the prefix or `ALL`, and the text in
      brackets parses back to the count. */
  lemma MenuLabelCount(name: string, n: int)
    ensures MenuLabel(name, None) == name
    ensures var shown := if name == "" then "ALL" else name;
            var text := MenuLabel(name, Some(n));
            |text| == |shown| + |IntToString(n)| + 3
            && text[..|shown|] == shown
            && text[|shown|..|shown| + 2] == " ("
            && text[|text| - 1] == ')'
            && ParseInt(text[|shown| + 2..|text| - 1]) == Some(n)
  {
    var shown := if name == "" then "ALL" else name;
    var digits := IntToString(n);
    var text := shown + " (" + digits + ")";
    assert text[..|shown|] == shown;
    assert text[|shown|..|shown| + 2] == " (";
    assert text[|shown| + 2..|text| - 1] == digits;
    ParseIntToString(n);
  }
}
