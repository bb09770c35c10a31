/**
 * The REST request of the node list (`fetchNodes`): the URL of one page of
 * nodes of a type, and the page size and total count returned with them.
 */
module AiidaClient {
  import opened Wrappers
  import opened Text

  /** The `attributes` of a node that the list shows. */
  datatype Attributes = Attributes(processState: Option<string>, processLabel: Option<string>, exitStatus: Option<int>)

  /** A node of the AiiDA REST API. */
  datatype RestNode = RestNode(id: int, uuid: string, mtime: string, nodeType: string,
                               processType: Option<string>, labelText: string, attributes: Option<Attributes>)

  /** A positive page size. */
  type PageSize = n: int | n > 0 witness 20

  /** The nodes per page, fixed. */
  const PerPage: PageSize := 20

  /** A page of nodes: the nodes, the total (`None` where `parseInt` gives
      `NaN`) and the page size. */
  datatype NodesPage = NodesPage(nodes: seq<RestNode>, totalCount: Option<int>, perPage: PageSize)

  /** What a response contributes: its `x-total-count` header, if sent, and
      the nodes of its JSON body. */
  datatype Response = Response(totalCountHeader: Option<string>, nodes: seq<RestNode>)

  const NodesPath := "/api/v4/nodes/page/"
  /** The query between the page number and the node type. */
  const PerPageQuery := "?perpage=" + IntToString(PerPage) + "&orderby=-mtime&node_type=like=%22"
  const AttributesQuery := "%%22&attributes=true&attributes_filter=process_label,process_state,exit_status"

  /** The request URL of `fetchNodes(baseUrl, nodeType, page)`. */
  function NodesUrl(baseUrl: string, nodeType: string, page: int): string {
    baseUrl + NodesPath + IntToString(page) + PerPageQuery + nodeType + AttributesQuery
  }

  /** The total of a response: `parseInt` of the header, `'0'` when it is
      missing or empty. */
  function TotalCount(header: Option<string>): Option<int> {
    ParseInt(OrElse(header.GetOr(""), "0"))
  }

  /** What `fetchNodes` returns for a response. */
  function NodesPageOf(response: Response): (r: NodesPage)
    ensures r.nodes == response.nodes && r.perPage == 20
    ensures r.totalCount == TotalCount(response.totalCountHeader)
  {
    NodesPage(response.nodes, TotalCount(response.totalCountHeader), PerPage)
  }

  /** A missing or empty header counts 0 nodes; a header holding the text of
      a number counts that number. */
  lemma TotalCountHeader(header: Option<string>, n: int)
    ensures (header.None? || header == Some("")) ==> TotalCount(header) == Some(0)
    ensures header == Some(IntToString(n)) ==> TotalCount(header) == Some(n)
  {
    if header.None? || header == Some("") {
      ZeroText();
      ParseIntToString(0);
    }
    if header == Some(IntToString(n)) {
      ParseIntToString(n);
    }
  }

  lemma ZeroText()
    ensures OrElse("", "0") == IntToString(0)
  {
  }

  lemma PerPageText()
    ensures PerPageQuery == "?perpage=" + "20" + "&orderby=-mtime&node_type=like=%22"
  {
    PerPageNumber();
  }

  lemma PerPageNumber()
    ensures IntToString(PerPage) == "20"
  {
  }

  /** The URL always carries the `node_type` clause, with the type between
      `like=%22` and `%%22`; an empty type gives `like=%22%%22`. */
  lemma NodeTypeClause(baseUrl: string, nodeType: string, page: int)
    ensures NodesUrl(baseUrl, nodeType, page)
            == baseUrl + NodesPath + IntToString(page) + "?perpage=" + "20" + "&orderby=-mtime&node_type=like=%22" + nodeType + AttributesQuery
    ensures nodeType == "" ==>
              NodesUrl(baseUrl, nodeType, page)
              == baseUrl + NodesPath + IntToString(page) + "?perpage=" + "20" + "&orderby=-mtime&node_type=like=%22" + AttributesQuery
  {
    PerPageText();
    var pre := baseUrl + NodesPath + IntToString(page);
    Regroup(pre, "?perpage=", "20", "&orderby=-mtime&node_type=like=%22", nodeType, AttributesQuery);
  }

  lemma Regroup(pre: string, a: string, b: string, c: string, t: string, tail: string)
    ensures pre + (a + b + c) + t + tail == pre + a + b + c + t + tail
    ensures t == "" ==> pre + (a + b + c) + t + tail == pre + a + b + c + tail
  {
  }

  /** Different pages or node types give different URLs: the URL determines
      both. */
  lemma NodesUrlInjective(baseUrl: string, t1: string, p1: int, t2: string, p2: int)
    requires NodesUrl(baseUrl, t1, p1) == NodesUrl(baseUrl, t2, p2)
    ensures p1 == p2 && t1 == t2
  {
    assert PerPageQuery[0] == '?';
    IntTextNoQuery(p1);
    IntTextNoQuery(p2);
    Framed(baseUrl + NodesPath, IntToString(p1), t1, IntToString(p2), t2, PerPageQuery, AttributesQuery);
    ParseIntToString(p1);
    ParseIntToString(p2);
  }

  // The text of an integer holds no `?`.
  lemma IntTextNoQuery(i: int)
    ensures '?' !in IntToString(i)
  {
    if i < 0 {
      var d := NatToString(-i);
      assert IntToString(i) == "-" + d;
      assert forall k :: 0 <= k < |d| ==> IsDecimalDigit(d[k]);
    }
  }

  // `head + x + mid + t + tail`, where `x` holds no `?` and `mid` starts
  // with one, determines `x` and `t`.
  lemma Framed(head: string, x1: string, t1: string, x2: string, t2: string, mid: string, tail: string)
    requires head + x1 + mid + t1 + tail == head + x2 + mid + t2 + tail
    requires '?' !in x1 && '?' !in x2 && |mid| > 0 && mid[0] == '?'
    ensures x1 == x2 && t1 == t2
  {
    var r1, r2 := x1 + (mid + t1 + tail), x2 + (mid + t2 + tail);
    assert head + x1 + mid + t1 + tail == head + r1;
    assert head + x2 + mid + t2 + tail == head + r2;
    assert r1 == (head + r1)[|head|..];
    assert r2 == (head + r2)[|head|..];
    QueryMarkAt(x1, mid + t1 + tail);
    QueryMarkAt(x2, mid + t2 + tail);
    assert x1 == r1[..|x1|];
    assert x2 == r2[..|x2|];
    assert t1 == r1[|x1| + |mid|..|r1| - |tail|];
    assert t2 == r2[|x2| + |mid|..|r2| - |tail|];
  }

  /** The position of the first `?`, or the length when there is none. */
  function QueryMark(s: string): (k: nat)
    ensures k <= |s|
  {
    if |s| == 0 || s[0] == '?' then 0 else 1 + QueryMark(s[1..])
  }

  // A `?` right after a `?`-free prefix is the first one.
  lemma {:induction false} QueryMarkAt(x: string, y: string)
    requires '?' !in x && |y| > 0 && y[0] == '?'
    ensures QueryMark(x + y) == |x|
  {
    if |x| > 0 {
      assert (x + y)[1..] == x[1..] + y;
      assert '?' !in x[1..] by {
        forall k | 0 <= k < |x[1..]| ensures x[1..][k] != '?' { assert x[1..][k] == x[k + 1]; }
      }
      QueryMarkAt(x[1..], y);
    }
  }
}
