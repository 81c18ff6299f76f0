/** The column-visibility table of the orders table (`allColumns`, `displayedColumns`). */
module Columns {
  import opened Wrappers

  /** A column entry; `caption` is the table's `label` field (`label` is a reserved word in Dafny). */
  datatype Column = Column(id: string, caption: string, visible: bool)

  /** The nine columns the table starts with, all visible. */
  function DefaultColumns(): seq<Column>
  {
    [ Column("id", "ID", true),
      Column("status", "Status", true),
      Column("priority", "Priorität", true),
      Column("source", "Quelle", true),
      Column("target", "Ziel", true),
      Column("vehicleId", "Fahrzeug", true),
      Column("createdAt", "Erstellt am", true),
      Column("eta", "ETA", true),
      Column("duration", "Dauer (min)", true) ]
  }

  /** The initial `displayedColumns`. */
  function DefaultDisplayed(): seq<string>
  {
    ["id", "status", "priority", "source", "target", "vehicleId", "createdAt", "eta", "duration"]
  }

  /** `allColumns.find(col => col.id === columnId)`: the position of the first column with that id. */
  function FindColumn(cols: seq<Column>, id: string): (r: Option<nat>)
    ensures r.Some? ==> r.value < |cols| && cols[r.value].id == id
    ensures r.Some? ==> forall j :: 0 <= j < r.value ==> cols[j].id != id
    ensures r.None? ==> forall j :: 0 <= j < |cols| ==> cols[j].id != id
  {
    if cols == [] then None
    else if cols[0].id == id then Some(0)
    else match FindColumn(cols[1..], id)
      case None => None
      case Some(k) => Some(k + 1)
  }

  /** `allColumns` after `toggleColumn(id)`: the first column with that id has its flag flipped. */
  function Flipped(cols: seq<Column>, id: string): (r: seq<Column>)
    ensures |r| == |cols|
    ensures forall j :: 0 <= j < |cols| ==> r[j].id == cols[j].id && r[j].caption == cols[j].caption
    ensures forall j :: 0 <= j < |cols| ==>
              (r[j].visible != cols[j].visible <==> FindColumn(cols, id) == Some(j))
  {
    match FindColumn(cols, id)
    case None => cols
    case Some(k) => cols[k := cols[k].(visible := !cols[k].visible)]
  }

  /** Some visible column carries the id `x`. */
  ghost predicate ShowsId(cols: seq<Column>, x: string)
  {
    exists j :: 0 <= j < |cols| && cols[j].visible && cols[j].id == x
  }

  /** `allColumns.filter(col => col.visible).map(col => col.id)`. */
  function VisibleIds(cols: seq<Column>): (r: seq<string>)
    ensures |r| <= |cols|
    ensures forall x :: x in r <==> ShowsId(cols, x)
  {
    if cols == [] then []
    else
      var rest := VisibleIds(cols[1..]);
      var r := (if cols[0].visible then [cols[0].id] else []) + rest;
      assert forall x :: x in r <==> ShowsId(cols, x) by {
        forall x ensures x in r <==> ShowsId(cols, x) {
          if ShowsId(cols[1..], x) {
            var j :| 0 <= j < |cols| - 1 && cols[1..][j].visible && cols[1..][j].id == x;
            assert cols[j + 1] == cols[1..][j];
          }
          if ShowsId(cols, x) {
            var j :| 0 <= j < |cols| && cols[j].visible && cols[j].id == x;
            if j > 0 {
              assert cols[1..][j - 1] == cols[j];
            }
          }
        }
      }
      r
  }

  /** The displayed ids keep the order of `allColumns`. */
  lemma {:induction false} VisibleIdsAppend(a: seq<Column>, b: seq<Column>)
    ensures VisibleIds(a + b) == VisibleIds(a) + VisibleIds(b)
  {
    if a != [] {
      assert (a + b)[1..] == a[1..] + b;
      VisibleIdsAppend(a[1..], b);
    } else {
      assert a + b == b;
    }
  }

  /** The table starts consistent: the displayed ids are those of the visible default columns. */
  lemma DefaultsConsistent()
    ensures VisibleIds(DefaultColumns()) == DefaultDisplayed()
  {
    var c := DefaultColumns();
    assert c[8..][1..] == [];
    assert c[7..][1..] == c[8..];
    assert c[6..][1..] == c[7..];
    assert c[5..][1..] == c[6..];
    assert c[4..][1..] == c[5..];
    assert c[3..][1..] == c[4..];
    assert c[2..][1..] == c[3..];
    assert c[1..][1..] == c[2..];
  }

  /** Whether a column is found depends only on the ids. */
  lemma {:induction false} FindColumnSameIds(a: seq<Column>, b: seq<Column>, id: string)
    requires |a| == |b|
    requires forall j :: 0 <= j < |a| ==> a[j].id == b[j].id
    ensures FindColumn(a, id) == FindColumn(b, id)
  {
    if a != [] && a[0].id != id {
      FindColumnSameIds(a[1..], b[1..], id);
    }
  }

  /** An unknown id leaves every column as it was. */
  lemma FlipUnknown(cols: seq<Column>, id: string)
    requires forall j :: 0 <= j < |cols| ==> cols[j].id != id
    ensures Flipped(cols, id) == cols
  {
  }

  /** Toggling the same column twice restores the original visibility. */
  lemma {:induction false} FlipTwice(cols: seq<Column>, id: string)
    ensures Flipped(Flipped(cols, id), id) == cols
  {
    FindColumnSameIds(cols, Flipped(cols, id), id);
  }
}
