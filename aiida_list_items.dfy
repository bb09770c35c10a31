/**
 * A list item for one AiiDA node (`AiidaNodeListItem`): the icon, title,
 * status chip and info line it shows, its menu and children toggles, and
 * the bookmark action of its context menu (`bookmarkUUID`).
 */
module AiidaListItems {
  import opened Wrappers
  import opened Text
  import opened OrderedSet
  import opened Hooks

  /** The process a node ran, when it is a process node. */
  datatype Process = Process(labelText: string, state: string, exitStatus: Option<int>)

  /** The link through which the node was reached, when listed as a neighbour. */
  datatype Link = Link(direction: string, linkType: string, labelText: string)

  /** The properties of a list item. */
  datatype ItemProps = ItemProps(pk: int, uuid: string, mtime: string, nodeType: string,
                                 processType: Option<string>, labelText: string,
                                 process: Option<Process>, link: Option<Link>)

  // -----------------------------------------------------------------------
  // icon

  /** `node_type.split('.').slice(0, 2).join('.')`: the first two segments
      of the node type. */
  function ElementName(nodeType: string): string {
    var segments := Split(nodeType, '.');
    Join(segments[..if |segments| < 2 then |segments| else 2], '.')
  }

  /** The element name is the node type up to (not including) its second
      dot, or the whole type when it has fewer than two dots. */
  lemma ElementNameShape(nodeType: string)
    ensures var segments := Split(nodeType, '.');
            ElementName(nodeType) == if |segments| < 2 then nodeType else segments[0] + "." + segments[1]
    ensures ElementName(nodeType) <= nodeType
  {
    var segments := Split(nodeType, '.');
    JoinSplit(nodeType, '.');
    if |segments| >= 2 {
      assert segments[..2][1..] == [segments[1]];
      JoinPrefix(segments, 2);
    } else {
      assert segments[..|segments|] == segments;
    }
  }

  // The join of the first `k` pieces starts the join of all of them.
  lemma {:induction false} JoinPrefix(parts: seq<string>, k: nat)
    requires 1 <= k <= |parts|
    ensures Join(parts[..k], '.') <= Join(parts, '.')
  {
    if k < |parts| {
      assert Join(parts, '.') == parts[0] + ['.'] + Join(parts[1..], '.');
      if k == 1 {
        assert parts[..1] == [parts[0]];
      } else {
        JoinPrefix(parts[1..], k - 1);
        assert parts[..k][1..] == parts[1..][..k - 1];
        assert Join(parts[..k], '.') == parts[0] + ['.'] + Join(parts[1..][..k - 1], '.');
      }
    } else {
      assert parts[..k] == parts;
    }
  }

  /** The keys of `ElementIconMap`. */
  const IconKeys: set<string> := {
    "default", "folder", "data.array", "data.bool", "data.cif", "data.code", "data.dict",
    "data.float", "data.folder", "data.int", "data.list", "data.numeric", "data.orbital",
    "data.remote", "data.str", "data.structure", "process.calculation", "process.process",
    "process.workflow"
  }

  /** The icon of an item: the map's icon for a key, or the unknown-device icon. */
  datatype Icon = Mapped(key: string) | DeviceUnknown

  /** The key looked up: `default` for an empty element name. */
  function IconKey(elementName: string): string {
    if elementName == "" then "default" else elementName
  }

  /** The icon for a node type: mapped exactly when its key is in the map. */
  function ItemIcon(nodeType: string): (r: Icon)
    ensures r.Mapped? <==> IconKey(ElementName(nodeType)) in IconKeys
    ensures r.Mapped? ==> r.key == IconKey(ElementName(nodeType))
  {
    var key := IconKey(ElementName(nodeType));
    if key in IconKeys then Mapped(key) else DeviceUnknown
  }

  /** A node with an empty type gets the `default` icon. */
  lemma EmptyTypeIcon()
    ensures ItemIcon("") == Mapped("default")
  {
    assert Split("", '.') == [""];
    assert Join([""], '.') == "";
  }

  /** A dictionary node (`data.dict.Dict.`) gets the `data.dict` icon. */
  lemma DictIcon()
    ensures ItemIcon("data.dict.Dict.") == Mapped("data.dict")
  {
    DictElementName();
    assert "data.dict" in IconKeys;
  }

  /** The element name of `data.dict.Dict.` is `data.dict`. */
  lemma DictElementName()
    ensures ElementName("data.dict.Dict.") == "data.dict"
  {
    assert "data" + "." + "dict" == "data.dict";
    var parts := ["data", "dict", "Dict", ""];
    assert Join(parts, '.') == "data.dict.Dict.";
    SplitJoin(parts, '.');
    ElementNameShape("data.dict.Dict.");
  }

  // -----------------------------------------------------------------------
  // title, chip and info

  datatype ChipColor = Primary | Error | Success

  /** The status chip of a process. */
  datatype Chip = Chip(text: string, color: ChipColor)

  /** The primary text, with the chip when there is one. */
  datatype Title = Title(text: string, chip: Option<Chip>)

  /** The chip text: the upper-cased state, then ` [n]` when the exit status
      is a number (0 included). */
  function ChipLabel(p: Process): string {
    if p.exitStatus.Some? then ToUpperAscii(OrElse(p.state, "")) + " [" + IntToString(p.exitStatus.value) + "]"
    else ToUpperAscii(OrElse(p.state, ""))
  }

  /** The chip text starts with the upper-cased state and goes on exactly
      when there is an exit status, which then follows in brackets. */
  lemma ChipLabelShape(p: Process)
    ensures |ChipLabel(p)| >= |p.state| && ChipLabel(p)[..|p.state|] == ToUpperAscii(p.state)
    ensures |ChipLabel(p)| > |p.state| <==> p.exitStatus.Some?
    ensures p.exitStatus.Some? ==>
              ChipLabel(p)[|p.state|..] == " [" + IntToString(p.exitStatus.value) + "]"
  {
    var upper := ToUpperAscii(OrElse(p.state, ""));
    assert OrElse(p.state, "") == p.state;
    if p.exitStatus.Some? {
      var tail := " [" + IntToString(p.exitStatus.value) + "]";
      assert ChipLabel(p) == upper + tail;
      assert (upper + tail)[..|upper|] == upper && (upper + tail)[|upper|..] == tail;
    }
  }

  /** A successful process shows `FINISHED [0]`. */
  lemma FinishedChip(p: Process)
    requires p.state == "finished" && p.exitStatus == Some(0)
    ensures ChipLabel(p) == "FINISHED [0]" && ChipColour(p) == Success
  {
    assert ToUpperAscii("finished") == "FINISHED";
    assert IntToString(0) == "0";
  }

  /** The chip colour: error for an excepted or killed process, otherwise
      success for exit status 0, otherwise primary. */
  function ChipColour(p: Process): (c: ChipColor)
    ensures c == Error <==> p.state == "excepted" || p.state == "killed"
    ensures c == Success <==> p.state != "excepted" && p.state != "killed" && p.exitStatus == Some(0)
  {
    if OrElse(p.state, "") in ["excepted", "killed"] then Error
    else if p.exitStatus == Some(0) then Success
    else Primary
  }

  /** The primary text: `pk label`; for a process `pk` and the process label
      (or the node label) with the chip; a link overrides both with `pk`,
      the upper-cased link type and the link label. */
  function ItemTitle(props: ItemProps): Title {
    var pk := IntToString(props.pk);
    var title := Title(pk + " " + OrElse(props.labelText, ""), None);
    var title :=
      if props.process.Some? then
        var p := props.process.value;
        Title(pk + " " + OrElse(OrElse(p.labelText, props.labelText), ""), Some(Chip(ChipLabel(p), ChipColour(p))))
      else title;
    if props.link.Some? then
      Title(pk + " " + ToUpperAscii(props.link.value.linkType) + " " + props.link.value.labelText, None)
    else title
  }

  /** A link decides the title alone: the process and the label play no part,
      and no chip is shown. */
  lemma LinkTitleWins(props: ItemProps, process: Option<Process>, labelText: string)
    requires props.link.Some?
    ensures ItemTitle(props.(process := process, labelText := labelText)) == ItemTitle(props)
    ensures ItemTitle(props).chip.None?
  {
  }

  /** Without a link, a process node has the chip and its title uses the
      process label unless it is empty; other nodes have no chip. */
  lemma ProcessTitle(props: ItemProps)
    requires props.link.None?
    ensures ItemTitle(props).chip.Some? <==> props.process.Some?
    ensures props.process.Some? && props.process.value.labelText != "" ==>
              ItemTitle(props).text == IntToString(props.pk) + " " + props.process.value.labelText
    ensures (props.process.None? || props.process.value.labelText == "") ==>
              ItemTitle(props).text == IntToString(props.pk) + " " + props.labelText
  {
  }

  /** The secondary text: `mtime, node_type`, then `, process_type` when
      the process type is non-empty. */
  function Info(props: ItemProps): string {
    var info := props.mtime + ", " + props.nodeType;
    if Truthy(props.processType) then info + ", " + props.processType.value else info
  }

  /** The info line always starts with `mtime, node_type` and goes on
      exactly when there is a non-empty process type. */
  lemma InfoShape(props: ItemProps)
    ensures var base := props.mtime + ", " + props.nodeType;
            |Info(props)| >= |base| && Info(props)[..|base|] == base
            && (|Info(props)| > |base| <==> Truthy(props.processType))
            && (Truthy(props.processType) ==> Info(props)[|base|..] == ", " + props.processType.value)
  {
    var base := props.mtime + ", " + props.nodeType;
    if Truthy(props.processType) {
      var tail := ", " + props.processType.value;
      assert (base + tail)[..|base|] == base && (base + tail)[|base|..] == tail;
    }
  }

  // -----------------------------------------------------------------------
  // menu and children state

  /** The expand icon: none without children, otherwise by the toggle. */
  datatype ExpandIcon = NoExpand | ExpandMore | ExpandLess

  /** The state cells of a list item. */
  class ItemState {
    var menuOpen: bool
    var anchored: bool
    var childOpen: bool

    constructor ()
      ensures !menuOpen && !anchored && !childOpen
    {
      menuOpen, anchored, childOpen := false, false, false;
    }

    /** `handleMenuOpen`: opens the context menu at the clicked element. */
    method HandleMenuOpen()
      modifies this
      ensures menuOpen && anchored && childOpen == old(childOpen)
    {
      menuOpen, anchored := true, true;
    }

    /** `handleMenuClose`: closes the context menu. */
    method HandleMenuClose()
      modifies this
      ensures !menuOpen && !anchored && childOpen == old(childOpen)
    {
      anchored, menuOpen := false, false;
    }

    /** `handleChildrenOpen`: flips the children open or closed. */
    method HandleChildrenOpen()
      modifies this
      ensures childOpen == !old(childOpen) && menuOpen == old(menuOpen) && anchored == old(anchored)
    {
      childOpen := !childOpen;
    }

    /** The expand icon shown for an item with or without children. */
    function Expand(hasChild: bool): (r: ExpandIcon)
      reads this
      ensures r == NoExpand <==> !hasChild
      ensures r == ExpandMore <==> hasChild && childOpen
    {
      if !hasChild then NoExpand else if childOpen then ExpandMore else ExpandLess
    }
  }

  // -----------------------------------------------------------------------
  // bookmarks

  const BookmarksKey := "aiida-uuid-bookmarks"

  /** The bookmarks already stored: the decoded list, as a set in insertion
      order; empty when reading throws, the item is missing or empty, or it
      does not decode. */
  function StoredBookmarks(read: Read, codec: Codec<seq<string>>): seq<string> {
    if read.Item? && read.text != "" && codec.decode(read.text).Some? then FromList(codec.decode(read.text).value)
    else []
  }

  /** The list `bookmarkUUID` writes back. */
  function Bookmarked(read: Read, codec: Codec<seq<string>>, uuid: string): seq<string> {
    Add(StoredBookmarks(read, codec), uuid)
  }

  /** After bookmarking, the list holds the uuid exactly once, no duplicate
      at all, and the earlier bookmarks first in their order; a missing or
      malformed value counts as no bookmarks. */
  lemma BookmarkedSpec(read: Read, codec: Codec<seq<string>>, uuid: string)
    ensures var r := Bookmarked(read, codec, uuid);
            uuid in r && NoDuplicates(r)
            && |r| >= |StoredBookmarks(read, codec)| && r[..|StoredBookmarks(read, codec)|] == StoredBookmarks(read, codec)
            && forall b :: b in r <==> b in StoredBookmarks(read, codec) || b == uuid
    ensures !(read.Item? && read.text != "" && codec.decode(read.text).Some?) ==> Bookmarked(read, codec, uuid) == [uuid]
  {
    var stored := StoredBookmarks(read, codec);
    if read.Item? && read.text != "" && codec.decode(read.text).Some? {
      FromListSpec(codec.decode(read.text).value);
    }
    AddSpec(stored, uuid);
  }

  /** A written list reads back as itself, so bookmarking the same uuid
      again writes the same list. */
  lemma BookmarkTwice(read: Read, codec: Codec<seq<string>>, uuid: string)
    requires Represents(codec, Bookmarked(read, codec, uuid))
    ensures var again := Item(codec.encode(Bookmarked(read, codec, uuid)));
            StoredBookmarks(again, codec) == Bookmarked(read, codec, uuid)
            && Bookmarked(again, codec, uuid) == Bookmarked(read, codec, uuid)
  {
    var r := Bookmarked(read, codec, uuid);
    BookmarkedSpec(read, codec, uuid);
    FromListIdentity(r);
  }

  /** `bookmarkUUID`: add the uuid to the stored list, write it back, then
      confirm in the snackbar and close the menu. A failing write throws
      out of the handler: nothing after it happens. */
  method BookmarkUUID(storage: Storage, codec: Codec<seq<string>>, snackbar: Snackbar, item: ItemState, uuid: string)
    returns (written: bool)
    modifies storage`items, snackbar, item
    ensures written == storage.writable
    ensures written ==>
              storage.items == old(storage.items)[BookmarksKey := codec.encode(Bookmarked(old(storage.GetItem(BookmarksKey)), codec, uuid))]
              && snackbar.Valid() && snackbar.open && snackbar.message == Some(Element("Bookmarked " + uuid))
              && snackbar.action.None? && snackbar.handleAction.None?
              && !item.menuOpen && !item.anchored && item.childOpen == old(item.childOpen)
    ensures !written ==>
              storage.items == old(storage.items) && unchanged(snackbar) && unchanged(item)
  {
    var current: seq<string> := [];
    var value := storage.GetItem(BookmarksKey);
    if value.Item? && value.text != "" {
      var parsed := codec.decode(value.text);
      if parsed.Some? {
        current := FromList(parsed.value);
      }
    }
    current := Add(current, uuid);
    written := storage.SetItem(BookmarksKey, codec.encode(current));
    if written {
      snackbar.ShowMessage(Element("Bookmarked " + uuid), None, None);
      item.HandleMenuClose();
    }
  }

  /** `copyUUIDtoClipboard`: confirm the copy in the snackbar and close the
      menu (the clipboard itself is outside the model). */
  method CopyUUID(snackbar: Snackbar, item: ItemState, uuid: string)
    modifies snackbar, item
    ensures snackbar.Valid() && snackbar.open && snackbar.message == Some(Element("Copied " + uuid))
    ensures snackbar.action.None? && snackbar.handleAction.None?
    ensures !item.menuOpen && !item.anchored && item.childOpen == old(item.childOpen)
  {
    snackbar.ShowMessage(Element("Copied " + uuid), None, None);
    item.HandleMenuClose();
  }
}
