/**
 * The atom table of a structure (`StructureTable`): one row per site with
 * its element, kind and coordinates, under a fixed list of columns.
 */
module StructureTable {
  import opened Wrappers
  import opened StructureUtils

  /** A site of a structure: the name of its kind and its cartesian position. */
  datatype Site = Site(kindName: string, position: (real, real, real))

  /** A table row. `element` is `None` where the site's kind is not among the
      structure's kinds (the lookup gives `undefined`). */
  datatype Row = Row(id: nat, element: Option<string>, kind: string, x: real, y: real, z: real)

  /** A column: the row field it shows and its header. */
  datatype Column = Column(field: string, headerName: string)

  /** The columns, in display order. */
  const Columns: seq<Column> :=
    [Column("element", "Element"), Column("kind", "Kind"), Column("x", "X"), Column("y", "Y"), Column("z", "Z")]

  /** The coordinate a row shows under a column's field, if it is one. */
  function CoordinateCell(row: Row, field: string): Option<real> {
    if field == "x" then Some(row.x)
    else if field == "y" then Some(row.y)
    else if field == "z" then Some(row.z)
    else None
  }

  /** Element and kind come first; the columns headed X, Y and Z show the
      row's `x`, `y` and `z`, which as written all hold the site's first
      coordinate. */
  lemma CoordinateColumns(kinds: seq<Kind>, sites: seq<Site>, i: int)
    requires 0 <= i < |sites|
    ensures |Columns| == 5
    ensures Columns[0] == Column("element", "Element") && Columns[1] == Column("kind", "Kind")
    ensures Columns[2].headerName == "X" && Columns[3].headerName == "Y" && Columns[4].headerName == "Z"
    ensures forall c :: 2 <= c < |Columns| ==>
              CoordinateCell(Rows(kinds, sites)[i], Columns[c].field) == Some(sites[i].position.0)
  {
  }

  /** The element the kind map gives a kind name, if any. */
  function ElementOf(kindMap: map<string, string>, kindName: string): Option<string> {
    if kindName in kindMap then Some(kindMap[kindName]) else None
  }

  /** The rows of `StructureTable`: site `i` becomes row `i`, its element
      looked up by kind name, and all three coordinates taken from the
      first component of its position. */
  function Rows(kinds: seq<Kind>, sites: seq<Site>): (rows: seq<Row>)
    ensures |rows| == |sites|
    ensures forall i :: 0 <= i < |rows| ==>
              rows[i].id == i && rows[i].kind == sites[i].kindName
              && rows[i].element == ElementOf(ElementMap(kinds), sites[i].kindName)
    ensures forall i :: 0 <= i < |rows| ==>
              rows[i].x == sites[i].position.0 && rows[i].y == sites[i].position.0 && rows[i].z == sites[i].position.0
  {
    var kindMap := ElementMap(kinds);
    seq(|sites|, i requires 0 <= i < |sites| =>
      Row(i, ElementOf(kindMap, sites[i].kindName), sites[i].kindName,
          sites[i].position.0, sites[i].position.0, sites[i].position.0))
  }

  /** A row has an element exactly when some kind carries its kind name, and
      then it is the element of the last such kind. */
  lemma RowElement(kinds: seq<Kind>, sites: seq<Site>, i: int, j: int)
    requires 0 <= i < |sites|
    ensures Rows(kinds, sites)[i].element.Some? <==> exists k :: k in kinds && k.name == sites[i].kindName
    ensures 0 <= j < |kinds| && kinds[j].name == sites[i].kindName && LastOfItsName(kinds, j) ==>
              Rows(kinds, sites)[i].element == Some(KindElement(kinds[j]))
  {
    ElementMapKeys(kinds);
    var name := sites[i].kindName;
    if name in ElementMap(kinds) {
      assert name in set k | k in kinds :: k.name;
    } else {
      assert name !in set k | k in kinds :: k.name;
    }
    if 0 <= j < |kinds| && kinds[j].name == name && LastOfItsName(kinds, j) {
      ElementMapLastWins(kinds, j);
    }
  }

  /** As written, a row shows its site's position only when the site lies on
      the diagonal: `y` and `z` repeat `x`. */
  lemma RowsShowDiagonalOnly(kinds: seq<Kind>, sites: seq<Site>, i: int)
    requires 0 <= i < |sites|
    ensures var r := Rows(kinds, sites)[i];
            (r.x, r.y, r.z) == sites[i].position
            <==> sites[i].position.0 == sites[i].position.1 == sites[i].position.2
  {
  }

  /** A helium site at (0, 1, 2) is listed at (0, 0, 0). */
  lemma OffDiagonalSite()
    ensures var r := Rows([Kind("He", ["He"])], [Site("He", (0.0, 1.0, 2.0))])[0];
            r.y == 0.0 && r.z == 0.0
  {
  }

  /** The rows with each coordinate taken from its own component. */
  function RowsCorrected(kinds: seq<Kind>, sites: seq<Site>): (rows: seq<Row>)
    ensures |rows| == |sites|
    ensures forall i :: 0 <= i < |rows| ==>
              rows[i].id == i && rows[i].kind == sites[i].kindName
              && rows[i].element == ElementOf(ElementMap(kinds), sites[i].kindName)
  {
    var kindMap := ElementMap(kinds);
    seq(|sites|, i requires 0 <= i < |sites| =>
      var (x, y, z) := sites[i].position;
      Row(i, ElementOf(kindMap, sites[i].kindName), sites[i].kindName, x, y, z))
  }

  /** Every corrected row shows its site's position, and differs from the
      row as written only in `y` and `z`. */
  lemma CorrectedRowsShowPosition(kinds: seq<Kind>, sites: seq<Site>, i: int)
    requires 0 <= i < |sites|
    ensures var r := RowsCorrected(kinds, sites)[i];
            (r.x, r.y, r.z) == sites[i].position
            && r == Rows(kinds, sites)[i].(y := sites[i].position.1, z := sites[i].position.2)
  {
  }
}
