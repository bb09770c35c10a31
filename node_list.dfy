/**
 * The node list (`AiidaNodeTree`): which page of nodes is asked for, how
 * many pages the pagination offers, which view the query status selects,
 * and the per-sub-query views of a node's children (`AiidaNodeChildren`).
 */
module NodeList {
  import opened Wrappers
  import opened Text
  import opened AiidaClient
  import opened AiidaListItems
  import opened Paging

  // -----------------------------------------------------------------------
  // query

  /** The cache key `[baseUrl, 'nodes', nodePrefix, page]` and whether the
      query may run. */
  datatype NodesQuery = NodesQuery(key: (Option<string>, string, string, int), enabled: bool)

  function NodesQueryOf(baseUrl: Option<string>, nodePrefix: string, page: int): (q: NodesQuery)
    ensures q.enabled <==> baseUrl.Some?
  {
    NodesQuery((baseUrl, "nodes", nodePrefix, page), baseUrl.Some?)
  }

  /** Each server, node type and page has its own cache entry: equal keys
      mean equal base URLs, prefixes and pages. */
  lemma NodesQueryKeys(b1: Option<string>, n1: string, p1: int, b2: Option<string>, n2: string, p2: int)
    ensures NodesQueryOf(b1, n1, p1).key == NodesQueryOf(b2, n2, p2).key <==> b1 == b2 && n1 == n2 && p1 == p2
  {
  }

  /** What the query holds: `undefined`, `null` or a page of nodes. */
  datatype Data<T> = Undefined | Null | Present(value: T)

  /** The status flags of the nodes query that the list branches on. */
  datatype QueryResult = QueryResult(isIdle: bool, data: Data<NodesPage>, isPreviousData: bool,
                                     isError: bool, errorMessage: string)

  // -----------------------------------------------------------------------
  // view

  /** The list item of a node: its process when its `process_state` is
      non-empty, and no link. */
  function NodeItem(node: RestNode): ItemProps {
    var process :=
      if node.attributes.Some? && Truthy(node.attributes.value.processState) then
        var a := node.attributes.value;
        Some(Process(a.processLabel.GetOr(""), a.processState.value, a.exitStatus))
      else None;
    ItemProps(node.id, node.uuid, node.mtime, node.nodeType, node.processType, node.labelText, process, None)
  }

  /** A listed node keeps its identity, and its title has a state chip
      exactly when it has a non-empty process state, which the chip shows. */
  lemma NodeItemChip(node: RestNode)
    ensures var props := NodeItem(node);
            props.pk == node.id && props.uuid == node.uuid && props.nodeType == node.nodeType
            && props.labelText == node.labelText && Info(props) == Info(props.(process := None))
    ensures ItemTitle(NodeItem(node)).chip.Some?
            <==> node.attributes.Some? && Truthy(node.attributes.value.processState)
    ensures ItemTitle(NodeItem(node)).chip.Some? ==>
              ItemTitle(NodeItem(node)).chip.value.text[..|node.attributes.value.processState.value|]
              == ToUpperAscii(node.attributes.value.processState.value)
  {
    var props := NodeItem(node);
    ProcessTitle(props);
    if props.process.Some? {
      ChipLabelShape(props.process.value);
    }
  }

  /** The list items of the nodes, one per node in the same order, each
      keyed by its node's uuid and keeping its pk. */
  function NodeItems(nodes: seq<RestNode>): (items: seq<ItemProps>)
    ensures |items| == |nodes|
    ensures forall i :: 0 <= i < |nodes| ==> items[i].uuid == nodes[i].uuid && items[i].pk == nodes[i].id
  {
    seq(|nodes|, i requires 0 <= i < |nodes| => NodeItem(nodes[i]))
  }

  /** The main view: `Disabled`, the node list, the error alert, or the
      spinner. */
  datatype TreeView = Disabled | Items(items: seq<ItemProps>) | ErrorAlert(message: string) | Spinner

  /** The view the status selects. */
  function ViewOf(result: QueryResult): TreeView {
    if result.isIdle || result.data.Null? then Disabled
    else if result.data.Present? then
      if !result.isPreviousData then Items(NodeItems(result.data.value.nodes)) else Spinner
    else if result.isError then ErrorAlert(result.errorMessage)
    else Spinner
  }

  /** An idle query or `null` data shows `Disabled`, whatever the data and
      the error; the list shows exactly the current data's nodes; the
      error shows only without data; everything else spins. */
  lemma ViewChoice(result: QueryResult)
    ensures result.isIdle || result.data.Null? <==> ViewOf(result) == Disabled
    ensures ViewOf(result).Items? <==> !result.isIdle && result.data.Present? && !result.isPreviousData
    ensures ViewOf(result).Items? ==>
              |ViewOf(result).items| == |result.data.value.nodes|
              && forall i :: 0 <= i < |result.data.value.nodes| ==>
                   ViewOf(result).items[i] == NodeItem(result.data.value.nodes[i])
    ensures ViewOf(result).ErrorAlert? <==> !result.isIdle && result.data.Undefined? && result.isError
    ensures ViewOf(result).ErrorAlert? ==> ViewOf(result).message == result.errorMessage
  {
  }

  /** Data of the previous page never shows as the list: the spinner shows
      until the new page arrives. */
  lemma PreviousDataSpins(result: QueryResult)
    requires !result.isIdle && result.data.Present? && result.isPreviousData
    ensures ViewOf(result) == Spinner
  {
  }

  /** The page count: one, unless there is data, then the ceiling of the
      total over the page size (`None` for a `NaN` total). */
  function PagesOf(result: QueryResult): Option<int> {
    if result.isIdle || result.data.Null? then Some(1)
    else if result.data.Present? then
      var d := result.data.value;
      if d.totalCount.Some? then Some(CeilDiv(d.totalCount.value, d.perPage)) else None
    else Some(1)
  }

  /** With data, the pages hold all the nodes and each offered page starts
      before the total; with no data there is one page. */
  lemma PagesCover(result: QueryResult, p: int)
    ensures !(!result.isIdle && result.data.Present?) ==> PagesOf(result) == Some(1)
    ensures !result.isIdle && result.data.Present? && result.data.value.totalCount.Some? ==>
              var d := result.data.value;
              var pages := PagesOf(result).value;
              d.totalCount.value <= pages * d.perPage
              && (1 <= p <= pages ==> (p - 1) * d.perPage < d.totalCount.value)
  {
    if !result.isIdle && result.data.Present? && result.data.value.totalCount.Some? {
      var d := result.data.value;
      var pages := CeilDiv(d.totalCount.value, d.perPage);
      if 1 <= p <= pages {
        MulMono(p - 1, pages - 1, d.perPage);
      }
    }
  }

  /** A whole number of full pages gives exactly that many pages: 40 nodes
      at 20 per page are two pages, 41 are three. */
  lemma PagesExact(total: int, perPage: PageSize, n: int)
    ensures total == n * perPage ==> CeilDiv(total, perPage) == n
    ensures total == n * perPage + 1 ==> CeilDiv(total, perPage) == n + 1
  {
    if total == n * perPage {
      CeilDivUnique(total, perPage, n);
    }
    if total == n * perPage + 1 {
      assert n * perPage + perPage == (n + 1) * perPage;
      CeilDivUnique(total, perPage, n + 1);
    }
  }

  /** The error branch resets the page to 1. */
  predicate ResetsPage(result: QueryResult) {
    !result.isIdle && result.data.Undefined? && result.isError
  }

  /** The page goes back to 1 exactly when the error alert is shown. */
  lemma ResetsExactlyOnErrorAlert(result: QueryResult)
    ensures ResetsPage(result) <==> ViewOf(result).ErrorAlert?
  {
    ViewChoice(result);
  }

  /** The page state of one node list. */
  class NodeTree {
    var nodePrefix: string
    var page: int

    constructor(nodePrefix: string)
      ensures this.nodePrefix == nodePrefix && page == 1
    {
      this.nodePrefix := nodePrefix;
      page := 1;
    }

    /** The query the current page asks for. */
    function Query(baseUrl: Option<string>): NodesQuery
      reads this
    {
      NodesQueryOf(baseUrl, nodePrefix, page)
    }

    /** The pagination picks a page. */
    method HandlePageChange(value: int)
      modifies this
      ensures page == value && nodePrefix == old(nodePrefix)
    {
      page := value;
    }

    /** Render for a query status: the view, the page count and whether the
        pagination is disabled; an error without data sets the page to 1. */
    method Render(result: QueryResult) returns (view: TreeView, pages: Option<int>, paginationDisabled: bool)
      modifies this
      ensures view == ViewOf(result) && pages == PagesOf(result)
      ensures paginationDisabled <==> result.isPreviousData
      ensures page == if ResetsPage(result) then 1 else old(page)
      ensures nodePrefix == old(nodePrefix)
    {
      view := Spinner;
      pages := Some(1);
      if result.isIdle || result.data.Null? {
        view := Disabled;
      } else if result.data.Present? {
        var d := result.data.value;
        pages := if d.totalCount.Some? then Some(CeilDiv(d.totalCount.value, d.perPage)) else None;
        if !result.isPreviousData {
          view := Items(NodeItems(d.nodes));
        }
      } else if result.isError {
        view := ErrorAlert(result.errorMessage);
        page := 1;
      }
      paginationDisabled := result.isPreviousData;
    }

    /** The parent passes another node type: the page state is kept. */
    method SetPrefix(value: string)
      modifies this
      ensures nodePrefix == value && page == old(page)
    {
      nodePrefix := value;
    }
  }

  /** Switching the node type on a later page asks for that page of the new
      type, which need not exist; only the error branch then resets it. */
  method PrefixChangeKeepsPage(tree: NodeTree, baseUrl: Option<string>, prefix: string)
    returns (query: NodesQuery)
    modifies tree
    ensures query == NodesQueryOf(baseUrl, prefix, old(tree.page))
  {
    tree.SetPrefix(prefix);
    query := tree.Query(baseUrl);
  }

  /** After an error the list asks for page 1 of the same node type. */
  method ErrorRestartsAtFirstPage(tree: NodeTree, baseUrl: Option<string>, message: string)
    returns (query: NodesQuery)
    modifies tree
    ensures query == NodesQueryOf(baseUrl, old(tree.nodePrefix), 1)
  {
    var view, pages, disabled := tree.Render(QueryResult(false, Undefined, false, true, message));
    query := tree.Query(baseUrl);
  }

  // -----------------------------------------------------------------------
  // children

  /** One sub-query of a node's children: its data, if any, and flags. */
  datatype SubResult<T> = SubResult(data: Option<seq<T>>, isError: bool, isLoading: bool, errorText: string)

  /** What a sub-query shows: its list, an error alert, or nothing. */
  datatype SubView<T> = SubList(entries: seq<T>) | SubError(message: string) | SubNothing

  function SubViewOf<T>(r: SubResult<T>, prefix: string): SubView<T> {
    if r.data.Some? && |r.data.value| > 0 then SubList(r.data.value)
    else if r.isError then SubError(prefix + r.errorText)
    else SubNothing
  }

  /** A non-empty list wins; an error shows, after its prefix, only when
      there is no list; an empty or missing list with no error shows
      nothing. */
  lemma SubViewChoice<T>(r: SubResult<T>, prefix: string)
    ensures SubViewOf(r, prefix).SubList? <==> r.data.Some? && |r.data.value| > 0
    ensures SubViewOf(r, prefix).SubList? ==> SubViewOf(r, prefix).entries == r.data.value
    ensures SubViewOf(r, prefix).SubError? <==> (r.data.None? || |r.data.value| == 0) && r.isError
    ensures SubViewOf(r, prefix).SubError? ==>
              |SubViewOf(r, prefix).message| >= |prefix|
              && SubViewOf(r, prefix).message[..|prefix|] == prefix
              && SubViewOf(r, prefix).message[|prefix|..] == r.errorText
  {
    var v := SubViewOf(r, prefix);
    if v.SubError? {
      assert (prefix + r.errorText)[..|prefix|] == prefix;
      assert (prefix + r.errorText)[|prefix|..] == r.errorText;
    }
  }

  const RepoPrefix := "Repository error: "
  const IncomingPrefix := "Incoming error: "
  const OutgoingPrefix := "Outgoing error: "

  /** The children of a node: the repository files, the incoming links and
      the outgoing links, and a loading skeleton. */
  datatype ChildrenView<R, L> = ChildrenView(repo: SubView<R>, incoming: SubView<L>, outgoing: SubView<L>, skeleton: bool)

  function ChildrenViewOf<R, L>(repo: SubResult<R>, incoming: SubResult<L>, outgoing: SubResult<L>): ChildrenView<R, L> {
    ChildrenView(SubViewOf(repo, RepoPrefix), SubViewOf(incoming, IncomingPrefix), SubViewOf(outgoing, OutgoingPrefix),
                 repo.isLoading || incoming.isLoading || outgoing.isLoading)
  }

  /** The three parts are chosen independently: each depends on its own
      sub-query only, and the skeleton shows while any one loads. */
  lemma ChildrenIndependent<R, L>(repo: SubResult<R>, incoming: SubResult<L>, outgoing: SubResult<L>)
    ensures ChildrenViewOf(repo, incoming, outgoing).skeleton
            <==> repo.isLoading || incoming.isLoading || outgoing.isLoading
    ensures ChildrenViewOf(repo, incoming, outgoing).repo == SubViewOf(repo, RepoPrefix)
    ensures ChildrenViewOf(repo, incoming, outgoing).incoming == SubViewOf(incoming, IncomingPrefix)
    ensures ChildrenViewOf(repo, incoming, outgoing).outgoing == SubViewOf(outgoing, OutgoingPrefix)
  {
  }
}
