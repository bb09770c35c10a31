# react-aiida-app core, modelled in Dafny

react-aiida-app is a browser dashboard for an AiiDA provenance database, reached through its REST API. It can also search external OPTIMADE structure databases. This project models the logic under that dashboard and proves properties of it. The modelled parts are:

- the OPTIMADE client's URL building, provider table and formula filter;
- the legacy AiiDA REST request for a page of nodes;
- the local-storage backed setting and the single snackbar;
- the node list item: icon, title, process chip, info line, menu state and bookmarks;
- the node list: page count, status-to-view choice, page reset and child sub-queries;
- the OPTIMADE panel: state cells, page count, formula error flag and view choice;
- the node explorer's expanded sections and type-prefix menu;
- the provenance graph's nodes and links;
- the structure table and the element radius and colour table.

Each source file has its own module:

| file | module | models |
|---|---|---|
| `optimade_client.dfy` | `Optimade` | `src/clients/optimadeClient.ts` |
| `aiida_client.dfy` | `AiidaClient` | `src/aiidaClient.ts` |
| `hooks.dfy` | `Hooks` | `src/hooks.tsx` |
| `aiida_list_items.dfy` | `AiidaListItems` | `src/components/aiidaListItems.tsx` |
| `node_list.dfy` | `NodeList` | `src/components/nodeList.tsx` |
| `optimade_panel.dfy` | `OptimadePanel` | `src/components/optimadePanel.tsx` |
| `page_node_explorer.dfy` | `PageNodeExplorer` | `src/PageNodeExplorer.tsx` |
| `provenance_graph.dfy` | `ProvenanceGraph` | `src/components/provenanceGraph.tsx` |
| `structure_table.dfy` | `StructureTable` | `src/components/structureTable.tsx` |
| `structure_utils.dfy` | `StructureUtils` | `src/components/structureUtils.ts` |

Shared modules stand in for JavaScript built-ins:

- `Text`: `String.split`, `Array.join`, ASCII `toUpperCase`, number-to-text and `parseInt`.
- `OrderedSet`: a `Set` in insertion order.
- `Paging`: `Math.ceil(a / b)`.
- `Wrappers`: `Option`.

Values that JavaScript lets be `undefined`, `null` or `NaN` become `Option`. React state cells that handlers update become fields of classes. The handlers become methods with `modifies` clauses.

Where the written specification of the system and the code disagree, the model follows the code:

- Data of a previous page is not kept visible while the next page loads. The code shows the spinner instead (`NodeList.PreviousDataSpins`; `src/components/optimadePanel.tsx:81`).
- The legacy nodes URL always carries the `node_type=like=%22…%%22` clause, even for an empty prefix (`AiidaClient.NodeTypeClause`).

## Model

| member | source | states |
|---|---|---|
| Optimade.FindUrl | src/clients/optimadeClient.ts:16-22 | a provider id has an endpoint exactly when it is a table key, and then it is the endpoint of the first entry with that id |
| Optimade.AppendUrl | src/clients/optimadeClient.ts:26-28 | the result is the url with its trailing slash (if any) removed, then a single `/`, then the tail with its leading slash (if any) removed; each side loses a slash exactly when it had one |
| Optimade.AppendUrlSlashes | src/clients/optimadeClient.ts:26-28 | for slash-free ends, all four combinations of a trailing and a leading slash join with exactly one `/` |
| Optimade.AppendUrlKeepsDoubledSlash | src/clients/optimadeClient.ts:26-28 | only one slash is trimmed on each side, so `a//` and `//b` join as `a///b` |
| Optimade.StripScheme | src/clients/optimadeClient.ts:33 | a url starting with `https://` loses those 8 characters, one starting with `http://` loses 7, and any other url is unchanged |
| Optimade.AddCorsProxy | src/clients/optimadeClient.ts:32-34 | an `https://` or `http://` url is joined to the proxy without its scheme; a url with neither scheme is joined unchanged |
| Optimade.StripSchemes | src/clients/optimadeClient.ts:33 | `https://` and `http://` are each removed once from a url that starts with them |
| Optimade.ProxyIgnoresScheme | src/clients/optimadeClient.ts:32-34 | a host over `https` and over `http` goes through any proxy alike, as the host alone |
| Optimade.ProxiedHost | src/clients/optimadeClient.ts:32-34 | an `https` or `http` host goes right after the slash of `https://cors.optimade.org/` |
| Optimade.CodThroughProxy | src/clients/optimadeClient.ts:17 | the COD endpoint goes through the proxy as `https://cors.optimade.org/www.crystallography.net/cod/optimade` |
| Optimade.ProxiedBase | src/clients/optimadeClient.ts:111-112 | for a provider whose endpoint is `https://host`, the base of its requests is the proxy, the host and the version |
| Optimade.CodEndpoint | src/clients/optimadeClient.ts:17 | the table maps `cod` to its endpoint |
| Optimade.StructureUrl | src/clients/optimadeClient.ts:16-22 | `StructureURLs[id]`: the table lookup, whose result `Optimade.FindUrl` characterises |
| Optimade.GetApiVersionPath | src/clients/optimadeClient.ts:36-41 | the empty path exactly when the api version is missing or empty; otherwise `/v` and the version's first character |
| Optimade.VersionPathMajorOnly | src/clients/optimadeClient.ts:40 | versions with the same first character give the same path |
| Optimade.DefaultVersionPath | src/clients/optimadeClient.ts:177 | the built-in providers list (api version `1.0.0`) gives `/v1` |
| Optimade.ProvidersMap | src/clients/optimadeClient.ts:43-48 | the map the reduce builds, one id at a time; its keys and values are stated by `Optimade.ProvidersMapKeys` and `Optimade.ProvidersMapLastWins` |
| Optimade.ProvidersMapKeys | src/clients/optimadeClient.ts:43-48 | the map's keys are exactly the ids in the providers data |
| Optimade.ProvidersMapLastWins | src/clients/optimadeClient.ts:43-48 | a provider maps from its id when no later provider has the same id |
| Optimade.ProvidersResponse2Map | src/clients/optimadeClient.ts:43-48 | the loop builds the same map as the fold |
| Optimade.ListedProviders | src/clients/optimadeClient.ts:89-94 | one entry per table key, in table order, each the provider of that id if present |
| Optimade.FilterClause | src/clients/optimadeClient.ts:115-123 | a clause exactly for a non-empty allowed formula: `=` for exact and `CONTAINS` otherwise |
| Optimade.FormulaAllowed | src/clients/optimadeClient.ts:24 | `formulaPattern`: a non-empty text of whitespace, ASCII letters and digits only; stated through `Optimade.FilterClause` (a clause exactly for an allowed formula) and `Optimade.FormulaExamples` |
| Optimade.FormulaExamples | src/clients/optimadeClient.ts:24 | `NaCl` is allowed and filtered; a formula with `<script>` is not |
| Optimade.StructuresRequest | src/clients/optimadeClient.ts:108-110 | no request exactly when the provider id is missing or empty (the URL of a request is stated by `Optimade.StructuresUrl`) |
| Optimade.DisallowedFormulaIgnored | src/clients/optimadeClient.ts:117-118 | a disallowed formula gives the same request as no formula |
| Optimade.UnfilteredRequest | src/clients/optimadeClient.ts:111-128 | without a formula the URL is the structures path, page number, page limit, sort and fields |
| Optimade.StructureViewRequest | src/clients/optimadeClient.ts:147-149 | no request exactly when the provider or structure id is empty (the URL of a request is stated by `Optimade.StructureViewUrl`) |
| Optimade.VersionPathSegment | src/clients/optimadeClient.ts:36-41 | every version path is empty or `/` and a segment without slashes at its ends, unless the version starts with `/` |
| Optimade.PlainEndpointOf | src/clients/optimadeClient.ts:32-34 | `http://` or `https://` plus a host is a plain endpoint whose proxied host is the host without one trailing slash |
| Optimade.KnownEndpointsPlain | src/clients/optimadeClient.ts:16-22 | all five table endpoints are plain `http` or `https` urls |
| Optimade.ProxiedPath | src/clients/optimadeClient.ts:111-112 | a plain endpoint under the proxy, a version path and a path `/t` join as proxy, host, version, `/t` with single slashes |
| Optimade.StructuresUrl | src/clients/optimadeClient.ts:111-127 | for every known provider and version path, the list request is the proxy, the host, the version, `/structures`, `?page_number=P&page_limit=L`, the filter clause, then the sort and the fields |
| Optimade.StructureViewUrl | src/clients/optimadeClient.ts:150-160 | for every known provider and version path, the structure request is the proxy, the host, the version, `/structures/` and the id, then `?response_fields=` and the fields |
| Optimade.OmdbListRequest | src/clients/optimadeClient.ts:18 | the `http` endpoint of omdb, with its trailing slash, is requested as `https://cors.optimade.org/optimade.openmaterialsdb.se/v1/structures?…` |
| Optimade.OptimadeClient.constructor | src/clients/optimadeClient.ts:82-87 | the given providers, or the built-in ones, and their version path |
| Optimade.OptimadeClient.GetStructureProviders | src/clients/optimadeClient.ts:89-94 | returns the listed providers |
| Optimade.OptimadeClient.GetStructures | src/clients/optimadeClient.ts:96-137 | returns the request of `StructuresRequest` for its arguments, with defaults page 1 and limit 10 |
| Optimade.OptimadeClient.GetStructureView | src/clients/optimadeClient.ts:140-169 | returns the request of `StructureViewRequest` |
| Optimade.ProviderBase | src/clients/optimadeClient.ts:111-112 | `addCorsProxy(StructureURLs[id])` and the version path; its text is stated by `Optimade.ProxiedPath` and `Optimade.ProxiedBase` |
| Optimade.CodProviderBase | src/clients/optimadeClient.ts:111-112 | the COD base under `/v1` is `https://cors.optimade.org/www.crystallography.net/cod/optimade/v1` |
| Optimade.CodListRequest | src/clients/optimadeClient.test.ts:18-27 | the first COD page with default arguments is the URL the client test expects |
| Optimade.CodViewRequest | src/clients/optimadeClient.test.ts:30-39 | the COD structure `myid` is requested at the URL the client test expects |
| Optimade.DefaultClientCodRequests | src/clients/optimadeClient.test.ts:18-39 | a default client asks for both test URLs |
| AiidaClient.NodesPageOf | src/aiidaClient.ts:43-52 | the page carries the response's nodes, the page size 20 and the parsed total |
| AiidaClient.NodesUrl | src/aiidaClient.ts:47 | the legacy nodes URL; its text and its injectivity are stated by `AiidaClient.NodeTypeClause` and `AiidaClient.NodesUrlInjective` |
| AiidaClient.TotalCount | src/aiidaClient.ts:49 | `parseInt` of the header, or of `'0'` when it is missing or empty; stated by `AiidaClient.TotalCountHeader` |
| AiidaClient.TotalCountHeader | src/aiidaClient.ts:49 | a missing or empty header counts 0; the text of a number counts that number |
| AiidaClient.NodeTypeClause | src/aiidaClient.ts:47 | the URL always carries the node-type clause; an empty type gives `like=%22%%22` |
| AiidaClient.NodesUrlInjective | src/aiidaClient.ts:47 | the URL determines the page and the node type |
| Hooks.Storage.GetItem | src/hooks.tsx:19 | a read throws exactly when storage is unreadable, is missing exactly when the key is absent, and otherwise returns the stored text |
| Hooks.Storage.SetItem | src/hooks.tsx:38 | a write succeeds exactly when storage is writable, and only then changes the key |
| Hooks.InitialValue | src/hooks.tsx:16-27 | a stored, non-empty, decodable text gives its decoded value; anything else gives the initial value |
| Hooks.StoredValueReloads | src/hooks.tsx:16-38 | a value written by the setting is read back by a new one |
| Hooks.UnreadableGivesDefault | src/hooks.tsx:22-26 | unreadable storage gives the initial value |
| Hooks.Setting.constructor | src/hooks.tsx:16-27 | the setting starts from the stored value or the initial value |
| Hooks.Setting.SetValue | src/hooks.tsx:31-43 | the new value is the update applied to the held value; storage holds its encoding when writable and is untouched otherwise |
| Hooks.SetThenReopen | src/hooks.tsx:9-46 | a value set in writable storage is the value of a setting opened afterwards |
| Hooks.Snackbar.constructor | src/hooks.tsx:106-111 | the snackbar starts closed |
| Hooks.Snackbar.ShowMessage | src/hooks.tsx:112-118 | the snackbar opens with the message, action and handler |
| Hooks.Snackbar.HandleClose | src/hooks.tsx:119-121 | the snackbar closes and forgets its message |
| Hooks.Snackbar.HandleActionClick | src/hooks.tsx:122-127 | the snackbar closes and the stored handler, if any, is the one called |
| AiidaListItems.ElementNameShape | src/components/aiidaListItems.tsx:76 | the element name is the type up to its second dot, or the whole type; it is a prefix of the type |
| AiidaListItems.ElementName | src/components/aiidaListItems.tsx:76 | the first two dot segments of the type, rejoined; stated by `AiidaListItems.ElementNameShape` |
| AiidaListItems.ItemIcon | src/components/aiidaListItems.tsx:77-79 | a mapped icon exactly when the key (`default` for an empty name) is in the icon map |
| AiidaListItems.EmptyTypeIcon | src/components/aiidaListItems.tsx:77 | an empty node type gets the `default` icon |
| AiidaListItems.DictIcon | src/components/aiidaListItems.tsx:76-77 | `data.dict.Dict.` gets the `data.dict` icon |
| AiidaListItems.ChipLabelShape | src/components/aiidaListItems.tsx:99-104 | the chip text is the upper-cased state, followed by ` [n]` exactly when there is an exit status |
| AiidaListItems.ChipLabel | src/components/aiidaListItems.tsx:99-104 | the chip text, stated by `AiidaListItems.ChipLabelShape` |
| AiidaListItems.FinishedChip | src/components/aiidaListItems.tsx:88-104 | a finished process with exit status 0 shows `FINISHED [0]` in the success colour |
| AiidaListItems.ChipColour | src/components/aiidaListItems.tsx:87-92 | error exactly for an excepted or killed process; success exactly otherwise with exit status 0 |
| AiidaListItems.LinkTitleWins | src/components/aiidaListItems.tsx:116-122 | with a link, the title ignores the process and the label and has no chip |
| AiidaListItems.ProcessTitle | src/components/aiidaListItems.tsx:83-96 | without a link, a chip exactly for a process; the process label wins unless empty |
| AiidaListItems.ItemTitle | src/components/aiidaListItems.tsx:83-122 | the title and chip, stated by `AiidaListItems.LinkTitleWins` and `AiidaListItems.ProcessTitle` |
| AiidaListItems.InfoShape | src/components/aiidaListItems.tsx:125-128 | the info line is `mtime, node_type`, followed by the process type exactly when it is non-empty |
| AiidaListItems.Info | src/components/aiidaListItems.tsx:125-128 | the info line, stated by `AiidaListItems.InfoShape` |
| AiidaListItems.ItemState.constructor | src/components/aiidaListItems.tsx:56-70 | the menu and the children start closed |
| AiidaListItems.ItemState.HandleMenuOpen | src/components/aiidaListItems.tsx:58-62 | the menu opens anchored; the children are untouched |
| AiidaListItems.ItemState.HandleMenuClose | src/components/aiidaListItems.tsx:63-67 | the menu closes unanchored; the children are untouched |
| AiidaListItems.ItemState.HandleChildrenOpen | src/components/aiidaListItems.tsx:71-73 | the children flip; the menu is untouched |
| AiidaListItems.ItemState.Expand | src/components/aiidaListItems.tsx:163-167 | no icon exactly without children; expand-more exactly with children open |
| AiidaListItems.BookmarkedSpec | src/components/aiidaListItems.tsx:203-216 | the written list holds the old bookmarks in order, then the uuid once, with no duplicates; unreadable or malformed storage counts as none |
| AiidaListItems.StoredBookmarks | src/components/aiidaListItems.tsx:205-211 | the stored list as a set, or none when unreadable, empty or malformed; stated by `AiidaListItems.BookmarkedSpec` |
| AiidaListItems.Bookmarked | src/components/aiidaListItems.tsx:203-212 | the stored set with the uuid added; stated by `AiidaListItems.BookmarkedSpec` |
| AiidaListItems.BookmarkTwice | src/components/aiidaListItems.tsx:203-216 | the written list reads back as itself, so bookmarking again writes the same list |
| AiidaListItems.BookmarkUUID | src/components/aiidaListItems.tsx:203-219 | on a successful write the list is stored, the snackbar confirms with no action and no handler, the menu closes and drops its anchor (`handleMenuClose`, `:63-66`), and the children are kept; a failed write changes nothing |
| AiidaListItems.CopyUUID | src/components/aiidaListItems.tsx:196-201 | the snackbar confirms `Copied uuid` with no action and no handler, and the menu closes and drops its anchor while the children are kept |
| NodeList.NodesQueryOf | src/components/nodeList.tsx:47-51 | the query is enabled exactly when there is a base URL |
| NodeList.NodesQueryKeys | src/components/nodeList.tsx:48 | equal keys mean equal base URL, prefix and page |
| NodeList.NodeItemChip | src/components/nodeList.tsx:67-85 | an item keeps the node's identity and has a state chip exactly when the node's process state is non-empty |
| NodeList.NodeItem | src/components/nodeList.tsx:67-85 | the list item of a node; stated by `NodeList.NodeItemChip` |
| NodeList.NodeItems | src/components/nodeList.tsx:67-85 | one item per node, in the nodes' order, each keyed by its node's uuid and keeping its pk |
| NodeList.ViewChoice | src/components/nodeList.tsx:53-97 | `Disabled` exactly when idle or null, ahead of data and error; the list exactly for current data; the error exactly without data |
| NodeList.ViewOf | src/components/nodeList.tsx:53-97 | the view the status selects; stated by `NodeList.ViewChoice` |
| NodeList.PreviousDataSpins | src/components/nodeList.tsx:61-64 | previous-page data shows the spinner |
| NodeList.PagesCover | src/components/nodeList.tsx:54-62 | one page without data; otherwise the pages cover the total and each starts before it |
| NodeList.PagesOf | src/components/nodeList.tsx:54-62 | the page count; stated by `NodeList.PagesCover` and `NodeList.PagesExact` |
| NodeList.PagesExact | src/components/nodeList.tsx:62 | n full pages give n pages; one node more gives n + 1 |
| NodeList.NodeTree.constructor | src/components/nodeList.tsx:41 | the list starts on page 1 |
| NodeList.NodeTree.Query | src/components/nodeList.tsx:47-51 | the query of the state's prefix and page; stated by `NodeList.PrefixChangeKeepsPage` and `NodeList.ErrorRestartsAtFirstPage` |
| NodeList.NodeTree.HandlePageChange | src/components/nodeList.tsx:42-44 | the page becomes the chosen one; the node type is kept |
| NodeList.NodeTree.Render | src/components/nodeList.tsx:53-129 | the view and page count as specified; pagination disabled exactly for previous data; the page resets to 1 exactly on the error branch |
| NodeList.ResetsPage | src/components/nodeList.tsx:90-96 | the error branch's condition; stated by `NodeList.ResetsExactlyOnErrorAlert` |
| NodeList.ResetsExactlyOnErrorAlert | src/components/nodeList.tsx:53-96 | the page goes back to 1 exactly when the error alert is shown |
| NodeList.NodeTree.SetPrefix | src/components/nodeList.tsx:37-41 | a new node type from the parent keeps the page state |
| NodeList.ErrorRestartsAtFirstPage | src/components/nodeList.tsx:90-96 | after an error the list queries page 1 |
| NodeList.PrefixChangeKeepsPage | src/components/nodeList.tsx:93-95 | switching the node type on a later page queries that page of the new type |
| NodeList.SubViewChoice | src/components/nodeList.tsx:166-197 | a list exactly for non-empty data; otherwise an error exactly when errored, the prefix then the error |
| NodeList.SubViewOf | src/components/nodeList.tsx:166-197 | one sub-query's view; stated by `NodeList.SubViewChoice` |
| NodeList.ChildrenIndependent | src/components/nodeList.tsx:164-202 | the repository, incoming and outgoing parts are each the view of their own sub-query alone, with its own error prefix (their meaning in `NodeList.SubViewChoice`); the skeleton shows exactly while one is loading |
| NodeList.ChildrenViewOf | src/components/nodeList.tsx:164-202 | the three sub-views and the skeleton flag; stated by `NodeList.ChildrenIndependent` |
| OptimadePanel.HelperText | src/components/optimadePanel.tsx:114-119 | the helper text shows exactly when the formula is flagged |
| OptimadePanel.FormulaFlagged | src/components/optimadePanel.tsx:114 | a non-empty formula the pattern refuses; stated by `OptimadePanel.FlaggedMeansIgnored` |
| OptimadePanel.FlaggedMeansIgnored | src/components/optimadePanel.tsx:114 | flagged exactly when a typed formula gives no filter clause; a flagged formula requests the same as none |
| OptimadePanel.PagesCover | src/components/optimadePanel.tsx:78-80 | one page without data or with a missing or zero total; otherwise the pages cover the total and each starts before it |
| OptimadePanel.PagesOf | src/components/optimadePanel.tsx:78-80 | the page count; stated by `OptimadePanel.PagesCover` |
| OptimadePanel.ViewChoice | src/components/optimadePanel.tsx:73-87 | the table exactly for current data; the error exactly without data |
| OptimadePanel.ViewOf | src/components/optimadePanel.tsx:73-87 | the view the status selects; stated by `OptimadePanel.ViewChoice` |
| OptimadePanel.Panel.constructor | src/components/optimadePanel.tsx:36-39 | no provider, no formula, no exact match, page 1 |
| OptimadePanel.Panel.SelectProvider | src/components/optimadePanel.tsx:97-100 | the provider changes and the page returns to 1 |
| OptimadePanel.Panel.SetFormula | src/components/optimadePanel.tsx:111-113 | the formula changes; the page is kept |
| OptimadePanel.Panel.SetExact | src/components/optimadePanel.tsx:129-131 | exact match changes; the page is kept |
| OptimadePanel.Panel.SetPage | src/components/optimadePanel.tsx:145-147 | the page changes; the filters are kept |
| OptimadePanel.Panel.Request | src/components/optimadePanel.tsx:41-51 | the client request for the state, with page limit 10 |
| OptimadePanel.Panel.Key | src/components/optimadePanel.tsx:41-42 | the structures query key of the state; stated by `OptimadePanel.KeysDistinguish` |
| OptimadePanel.Panel.Render | src/components/optimadePanel.tsx:73-140 | the view and page count as specified; the pagination is disabled exactly while previous-page data is shown, so never under the table |
| OptimadePanel.KeysDistinguish | src/components/optimadePanel.tsx:42 | two panels have equal query keys exactly when their provider, formula, match and page are equal |
| OptimadePanel.ChooseProviderOnLaterPage | src/components/optimadePanel.tsx:97-100 | choosing a provider from any page requests its first page |
| PageNodeExplorer.ExpandedMembers | src/PageNodeExplorer.tsx:40-48 | the tab is in exactly when expanded; other tabs are kept; no duplicates |
| PageNodeExplorer.Expanded | src/PageNodeExplorer.tsx:40-48 | the list after a tab changes; stated by `PageNodeExplorer.ExpandedMembers`, `PageNodeExplorer.ExpandedOrder` and `PageNodeExplorer.ExpandedIdempotent` |
| PageNodeExplorer.ExpandedOrder | src/PageNodeExplorer.tsx:41-47 | expanding appends a new tab; collapsing removes it in place |
| PageNodeExplorer.ExpandedIdempotent | src/PageNodeExplorer.tsx:40-48 | repeating a change changes nothing more |
| PageNodeExplorer.ChangeExpanded | src/PageNodeExplorer.tsx:40-48 | the setting holds the changed list and stores it when writable |
| PageNodeExplorer.OpenSettings | src/PageNodeExplorer.tsx:28-39 | the prefix, uuid-field and expanded-sections settings open on their own three keys of one storage, from their stored values or the defaults `''`, null and `['intro']` |
| PageNodeExplorer.DefaultSections | src/PageNodeExplorer.tsx:36-39 | without a stored list only `intro` is expanded |
| PageNodeExplorer.NodeStatistics.constructor | src/PageNodeExplorer.tsx:188-189 | statistics hold the given total and types |
| PageNodeExplorer.Overlay | src/PageNodeExplorer.tsx:189-195 | the empty prefix counts the total, the four group prefixes count nothing, other types keep their count |
| PageNodeExplorer.OverlayIdempotent | src/PageNodeExplorer.tsx:189-195 | overlaying twice is overlaying once |
| PageNodeExplorer.NodePrefixes | src/PageNodeExplorer.tsx:187-196 | the default prefixes without statistics; otherwise the statistics' types, overlaid in place |
| PageNodeExplorer.DefaultPrefixes | src/PageNodeExplorer.tsx:152-171 | 18 default prefixes, all without count, the empty one among them |
| PageNodeExplorer.MenuLabelCount | src/PageNodeExplorer.tsx:214 | an uncounted entry is the name alone; a counted entry reads `name (n)`, `ALL` for the empty prefix, with ` (` after the name, `)` at the end, and the bracket parsing back to n |
| PageNodeExplorer.MenuLabel | src/PageNodeExplorer.tsx:214 | the text of a menu entry; stated by `PageNodeExplorer.MenuLabelCount` |
| ProvenanceGraph.Pop | src/components/provenanceGraph.tsx:100 | removes and returns the last element, or nothing from an empty list |
| ProvenanceGraph.NodeLabel | src/components/provenanceGraph.tsx:98-108 | the label is the second-to-last dot segment, or none for a type without a dot |
| ProvenanceGraph.DictNodeLabel | src/components/provenanceGraph.tsx:99-104 | `data.dict.Dict.` is labelled `Dict` |
| ProvenanceGraph.NoDotNoLabel | src/components/provenanceGraph.tsx:99-104 | a type without a dot has no label |
| ProvenanceGraph.NodeName | src/components/provenanceGraph.tsx:102-103 | the id is the node id; the name adds `, process_type` exactly when it is non-empty |
| ProvenanceGraph.CreateNodeData | src/components/provenanceGraph.tsx:98-108 | the graph node of an item; stated by `ProvenanceGraph.NodeLabel` and `ProvenanceGraph.NodeName` |
| ProvenanceGraph.NodesOf | src/components/provenanceGraph.tsx:52-54 | one node per item, in order |
| ProvenanceGraph.IncomingLinks | src/components/provenanceGraph.tsx:55-61 | one link per item, from the item to the root, named by its link label |
| ProvenanceGraph.OutgoingLinks | src/components/provenanceGraph.tsx:67-73 | one link per item, from the root to the item, named by its link label |
| ProvenanceGraph.AssembleGraph | src/components/provenanceGraph.tsx:41-74 | the root, then the incoming nodes, then the outgoing ones; incoming links, then outgoing ones |
| ProvenanceGraph.GraphNodes | src/components/provenanceGraph.tsx:48-66 | the root is first and every incoming and outgoing node is at its position |
| ProvenanceGraph.GraphLinks | src/components/provenanceGraph.tsx:49-73 | every incoming and outgoing link is at its position |
| StructureUtils.ElementMapKeys | src/components/structureUtils.ts:45-52 | the map's keys are exactly the kind names |
| StructureUtils.ElementMapLastWins | src/components/structureUtils.ts:48-50 | a name maps to the first symbol of its last kind, or `XX` |
| StructureUtils.KindElement | src/components/structureUtils.ts:48-50 | the first chemical symbol of a kind, or `XX` |
| StructureUtils.ElementMap | src/components/structureUtils.ts:45-52 | the map the reduce builds; stated by `StructureUtils.ElementMapKeys` and `StructureUtils.ElementMapLastWins` |
| StructureUtils.Kinds2ElMap | src/components/structureUtils.ts:45-52 | the loop builds the same map as the fold |
| StructureUtils.Element2Radius | src/components/structureUtils.ts:66-68 | the table radius of a known element, else 1 |
| StructureUtils.Element2ColorThree | src/components/structureUtils.ts:61-63 | the table colour of a known element, else green |
| StructureUtils.SymbollessKind | src/components/structureUtils.ts:49-72 | a kind without symbols is drawn as `XX`: radius 0.8, grey |
| StructureTable.Rows | src/components/structureTable.tsx:39-48 | one row per site, numbered by position, with its kind, its looked-up element and all three coordinates from the first component |
| StructureTable.CoordinateColumns | src/components/structureTable.tsx:15-47 | the columns are Element, Kind, X, Y, Z in that order, and as written the X, Y and Z columns all show the site's first coordinate |
| StructureTable.RowElement | src/components/structureTable.tsx:14-42 | a row has an element exactly when some kind has its name, and then it is the last such kind's element |
| StructureTable.RowsShowDiagonalOnly | src/components/structureTable.tsx:44-46 | a row shows its site's position exactly when the three components are equal |
| StructureTable.OffDiagonalSite | src/components/structureTable.tsx:44-46 | a site at (0, 1, 2) is listed at y = 0 and z = 0 |
| StructureTable.RowsCorrected | src/components/structureTable.tsx:39-48 | one row per site with its id, kind and element |
| StructureTable.CorrectedRowsShowPosition | src/components/structureTable.tsx:44-46 | a corrected row shows the site's position and differs from the row as written only in y and z |
| Text.Split | src/components/provenanceGraph.tsx:99 | at least one part, none holding the separator |
| Text.JoinSplit | src/components/aiidaListItems.tsx:76 | joining the split pieces gives back the text |
| Text.SplitJoin | src/components/aiidaListItems.tsx:76 | splitting the join of separator-free pieces gives back the pieces |
| Text.ToUpperAscii | src/components/aiidaListItems.tsx:101 | same length, each character upper-cased |
| Text.ParseIntToString | src/aiidaClient.ts:49 | `parseInt` of the text of an integer is that integer |
| OrderedSet.AddSpec | src/components/aiidaListItems.tsx:212 | adding keeps the order and members, appends a new member once, and is idempotent |
| OrderedSet.DeleteMembers | src/PageNodeExplorer.tsx:45 | deleting removes exactly that member |
| OrderedSet.DeleteAt | src/PageNodeExplorer.tsx:45 | deleting from a duplicate-free list removes its one position |
| OrderedSet.FromListSpec | src/components/aiidaListItems.tsx:210 | the set of a list has the list's members, once each |
| OrderedSet.FromListIdentity | src/PageNodeExplorer.tsx:41 | a duplicate-free list is its own set |
| Paging.CeilDiv | src/components/nodeList.tsx:62 | the result r satisfies (r - 1)·b < a ≤ r·b |
| Paging.CeilDivUnique | src/components/optimadePanel.tsx:80 | only the ceiling satisfies those bounds |

## Findings

| source | as written | input that shows it | evidently intended | confidence | as-written member | corrected member |
|---|---|---|---|---|---|---|
| src/components/structureTable.tsx:44-46 | the `x`, `y` and `z` columns are all `site.position[0]` | a site at position (0, 1, 2) is shown at (0, 0, 0) | `y` from `position[1]` and `z` from `position[2]` | high; not executed | StructureTable.RowsShowDiagonalOnly | StructureTable.CorrectedRowsShowPosition |

## Left out

- Network access (`fetch`, response headers beyond `x-total-count`, the `origin` header for the proxy) is outside the model; the requests are modelled as the URLs they fetch, and responses as values handed in.
- `JSON.parse` and `JSON.stringify` are an abstract codec: a pair of functions whose round trip is a hypothesis (`Hooks.Represents`), not a property of JSON.
- The internals of `react-query` (caching, deduplication, refetch, keep-previous-data) are left out; the components are modelled by how they branch on its status flags.
- `src/clients/aiidaClient.ts` is not part of this model; the node list's data and the children's sub-queries are taken as values.
- Optimade.StructuresRequest: requires a known provider id, because the source looks up an unknown id as `undefined` and then fails inside `String.replace`.
- Optimade.OptimadeClient.GetStructures: requires a known provider id, for the same reason as `StructuresRequest`, which it returns.
- Optimade.StructureViewRequest: requires a known provider id whenever both ids are non-empty, because `getStructureView` looks an unknown id up as `undefined` and fails in the same way.
- Optimade.OptimadeClient.GetStructureView: requires a known provider id whenever both ids are non-empty, for the same reason as `StructureViewRequest`, which it returns.
- `lodash.get` path semantics: a dotted element name such as `a.b` would look up a nested path; element names are plain keys in the model.
- Floating point: radii and colours are exact reals, `three.Color` is a triple, and `element2colorCss` (its `rgb()` text) and `vectorLength` are left out.
- AiidaListItems: `toUpperCase` is modelled for ASCII letters only.
- Text.ParseInt: models `parseInt` for decimal and `0x` texts with unbounded precision; `NaN` is `None`.
- The menu's `.sort()` of the prefix entries is left out: the model keeps the prefixes as a map, which has no order.
- Provider descriptions and tooltips, icons, indentation, styles and the dark-mode switch are presentation and are left out.
- Hooks.InitialValue: `JSON.parse` does no type check, so well-formed stored JSON of another type becomes the held value in the source; the model has no such value and gives the initial value for it.
- Hooks.Setting.SetValue: a functional update is applied to the value the setting holds; React's stale-closure behaviour between renders is not modelled.
- AiidaListItems.BookmarkUUID: a stored value is taken to decode to a list of strings; `new Set` over a decoded string (iterating its characters) or over non-string entries is not modelled.
- The clipboard write of the copy action is left out; its snackbar message and menu close are modelled.
- The repository-file and link sub-lists under a node (`AiidaRepoList`, `AiidaLinksList`) and the `nodeFieldsUUID` attributes view are presentation over data the model does not fetch.
- NodeList.PagesOf: a `NaN` total gives `None`; a zero or negative page size, which the client never returns, is excluded by the `PageSize` type.
