/**
 * The data behind the provenance graph of a node (`AiidaProvenanceGraph`):
 * a root node, one node per incoming and outgoing link, and one graph link
 * per link, pointing into the root for incoming and out of it for outgoing.
 */
module ProvenanceGraph {
  import opened Wrappers
  import opened Text

  /** A link item of the AiiDA REST API: the linked node and the link's label. */
  datatype LinkItem = LinkItem(id: int, nodeType: string, processType: Option<string>, linkLabel: string)

  /** A node of the drawn graph. */
  datatype GraphNode = GraphNode(id: string, name: string, labelText: Option<string>, val: int, color: string)

  /** A link of the drawn graph. */
  datatype GraphLink = GraphLink(source: string, target: string, name: string)

  const RootNode := GraphNode("root", "root", Some("ROOT"), 2, "red")

  /** `Array.prototype.pop`: the list without its last element and that
      element, or the list unchanged and `undefined` when it is empty. */
  function Pop(s: seq<string>): (r: (seq<string>, Option<string>))
    ensures |s| > 0 ==> r.0 == s[..|s| - 1] && r.1 == Some(s[|s| - 1])
    ensures |s| == 0 ==> r.0 == s && r.1 == None
  {
    if |s| == 0 then (s, None) else (s[..|s| - 1], Some(s[|s| - 1]))
  }

  /** `createNodeData(node)`: the node type is split at `.`, its last
      segment popped off and the next one popped as the label. */
  function CreateNodeData(node: LinkItem): GraphNode {
    var segments := Split(node.nodeType, '.');
    var rest := Pop(segments).0;
    var popped := Pop(rest).1;
    var id := IntToString(node.id);
    GraphNode(id, id + (if Truthy(node.processType) then ", " + node.processType.value else ""), popped, 40, "blue")
  }

  /** The label is the second-to-last `.`-segment of the node type, and
      there is none when the type has fewer than two segments. */
  lemma NodeLabel(node: LinkItem)
    ensures var segments := Split(node.nodeType, '.');
            CreateNodeData(node).labelText == if |segments| >= 2 then Some(segments[|segments| - 2]) else None
  {
    var segments := Split(node.nodeType, '.');
    if |segments| >= 2 {
      assert segments[..|segments| - 1][|segments| - 2] == segments[|segments| - 2];
    }
  }

  /** The label of a `data.dict.Dict.` node is `Dict`. */
  lemma DictNodeLabel(node: LinkItem)
    requires node.nodeType == "data.dict.Dict."
    ensures CreateNodeData(node).labelText == Some("Dict")
  {
    var parts := ["data", "dict", "Dict", ""];
    assert Join(parts, '.') == "data.dict.Dict.";
    SplitJoin(parts, '.');
    NodeLabel(node);
  }

  /** A node type without a `.` has a single segment: no label. */
  lemma NoDotNoLabel(node: LinkItem)
    requires '.' !in node.nodeType
    ensures CreateNodeData(node).labelText.None?
  {
    NodeLabel(node);
    JoinSplit(node.nodeType, '.');
    var segments := Split(node.nodeType, '.');
    if |segments| >= 2 {
      JoinAtLeastTwo(segments, '.');
    }
  }

  // Joining two or more segments puts the separator in the text.
  lemma JoinAtLeastTwo(parts: seq<string>, sep: char)
    requires |parts| >= 2
    ensures sep in Join(parts, sep)
  {
    assert Join(parts, sep) == parts[0] + [sep] + Join(parts[1..], sep);
    assert Join(parts, sep)[|parts[0]|] == sep;
  }

  /** The id is the node's id as text, and the name adds `, ` and the process
      type exactly when there is a non-empty process type. */
  lemma NodeName(node: LinkItem)
    ensures CreateNodeData(node).id == IntToString(node.id)
    ensures Truthy(node.processType) ==>
              CreateNodeData(node).name == IntToString(node.id) + ", " + node.processType.value
    ensures !Truthy(node.processType) ==> CreateNodeData(node).name == IntToString(node.id)
  {
    var id := IntToString(node.id);
    assert id + "" == id;
  }

  /** The graph node of each linked node, in order. */
  function NodesOf(items: seq<LinkItem>): (r: seq<GraphNode>)
    ensures |r| == |items| && forall i :: 0 <= i < |items| ==> r[i] == CreateNodeData(items[i])
  {
    seq(|items|, i requires 0 <= i < |items| => CreateNodeData(items[i]))
  }

  /** The graph link of each incoming link: from the linked node to the root. */
  function IncomingLinks(items: seq<LinkItem>): (r: seq<GraphLink>)
    ensures |r| == |items|
    ensures forall i :: 0 <= i < |items| ==> r[i].target == "root" && r[i].source == IntToString(items[i].id)
    ensures forall i :: 0 <= i < |items| ==> r[i].name == items[i].linkLabel
  {
    seq(|items|, i requires 0 <= i < |items| => GraphLink(IntToString(items[i].id), "root", items[i].linkLabel))
  }

  /** The graph link of each outgoing link: from the root to the linked node. */
  function OutgoingLinks(items: seq<LinkItem>): (r: seq<GraphLink>)
    ensures |r| == |items|
    ensures forall i :: 0 <= i < |items| ==> r[i].source == "root" && r[i].target == IntToString(items[i].id)
    ensures forall i :: 0 <= i < |items| ==> r[i].name == items[i].linkLabel
  {
    seq(|items|, i requires 0 <= i < |items| => GraphLink("root", IntToString(items[i].id), items[i].linkLabel))
  }

  /** The graph nodes and links, pushed list by list: the root first,
      then the incoming nodes, then the outgoing ones; a list that has not
      arrived adds nothing. */
  method AssembleGraph(incoming: Option<seq<LinkItem>>, outgoing: Option<seq<LinkItem>>)
    returns (nodes: seq<GraphNode>, links: seq<GraphLink>)
    ensures nodes == [RootNode] + NodesOf(incoming.GetOr([])) + NodesOf(outgoing.GetOr([]))
    ensures links == IncomingLinks(incoming.GetOr([])) + OutgoingLinks(outgoing.GetOr([]))
  {
    nodes := [RootNode];
    links := [];
    if incoming.Some? {
      nodes := nodes + NodesOf(incoming.value);
      links := links + IncomingLinks(incoming.value);
    }
    if outgoing.Some? {
      nodes := nodes + NodesOf(outgoing.value);
      links := links + OutgoingLinks(outgoing.value);
    }
  }

  /** The assembled nodes: the root, then one node per incoming and per
      outgoing link item, in order. */
  lemma {:induction false} GraphNodes(ins: seq<LinkItem>, outs: seq<LinkItem>)
    ensures var nodes := [RootNode] + NodesOf(ins) + NodesOf(outs);
            |nodes| == 1 + |ins| + |outs| && nodes[0] == RootNode
            && (forall i :: 0 <= i < |ins| ==> nodes[1 + i] == CreateNodeData(ins[i]))
            && (forall i :: 0 <= i < |outs| ==> nodes[1 + |ins| + i] == CreateNodeData(outs[i]))
  {
    var nodes := [RootNode] + NodesOf(ins) + NodesOf(outs);
    forall i | 0 <= i < |ins|
      ensures nodes[1 + i] == NodesOf(ins)[i]
    {
    }
    forall i | 0 <= i < |outs|
      ensures nodes[1 + |ins| + i] == NodesOf(outs)[i]
    {
    }
  }

  /** The assembled links: one per link item, into the root for incoming and
      out of it for outgoing, each named by its link label. */
  lemma {:induction false} GraphLinks(ins: seq<LinkItem>, outs: seq<LinkItem>)
    ensures var links := IncomingLinks(ins) + OutgoingLinks(outs);
            |links| == |ins| + |outs|
            && (forall i :: 0 <= i < |ins| ==>
                  links[i] == GraphLink(IntToString(ins[i].id), "root", ins[i].linkLabel))
            && (forall i :: 0 <= i < |outs| ==>
                  links[|ins| + i] == GraphLink("root", IntToString(outs[i].id), outs[i].linkLabel))
  {
    var links := IncomingLinks(ins) + OutgoingLinks(outs);
    forall i | 0 <= i < |outs|
      ensures links[|ins| + i] == OutgoingLinks(outs)[i]
    {
    }
  }
}
