/** The generic grid (src/components/admin/DataTable.tsx): one header per
    column, one row per record and one cell per column, each cell taken from
    the caller's `renderCell` when one is given and from `item[column.key]`
    otherwise. The component is a function of its inputs: it has no state and
    changes neither `data` nor `columns`. */
module DataTable {
  import opened Wrappers
  import opened Lists

  /** A column descriptor `{key, label, width?}`; `caption` is the
      source's `label`, a reserved word in Dafny. */
  datatype Column = Column(key: string, caption: string, width: Option<string>)

  /** The rendered grid. A cell is `None` when it shows `undefined` (a key
      the record does not have). */
  datatype Table<V> = Table(headers: seq<string>, rows: seq<seq<Option<V>>>)

  /** `renderCell ? renderCell(item, column) : item[column.key]`. */
  function Cell<V>(item: map<string, V>, column: Column,
                   renderCell: Option<(map<string, V>, Column) -> Option<V>>): Option<V>
  {
    match renderCell
    case Some(render) => render(item, column)
    case None => if column.key in item then Some(item[column.key]) else None
  }

  function RowOf<V>(columns: seq<Column>, renderCell: Option<(map<string, V>, Column) -> Option<V>>)
    : map<string, V> -> seq<Option<V>>
  {
    item => Map(columns, (c: Column) => Cell(item, c, renderCell))
  }

  function Caption(c: Column): string {
    c.caption
  }

  /** The whole grid: headers in column order, rows in data order, every row
      as wide as the column list, every cell computed from its own record and
      column alone. */
  function Render<V>(data: seq<map<string, V>>, columns: seq<Column>,
                     renderCell: Option<(map<string, V>, Column) -> Option<V>>): (t: Table<V>)
    ensures |t.headers| == |columns|
    ensures forall c :: 0 <= c < |columns| ==> t.headers[c] == columns[c].caption
    ensures |t.rows| == |data|
    ensures forall r :: 0 <= r < |data| ==> |t.rows[r]| == |columns|
    ensures forall r, c :: 0 <= r < |data| && 0 <= c < |columns| ==>
              t.rows[r][c] == Cell(data[r], columns[c], renderCell)
  {
    Table(Map(columns, Caption), Map(data, RowOf(columns, renderCell)))
  }

  /** Without a formatter every cell is the record's own value for the
      column's key, and `undefined` for a key it lacks. */
  lemma DefaultCellsAreFieldValues<V>(data: seq<map<string, V>>, columns: seq<Column>)
    ensures forall r, c :: 0 <= r < |data| && 0 <= c < |columns| ==>
              Render(data, columns, None).rows[r][c]
                == (if columns[c].key in data[r] then Some(data[r][columns[c].key]) else None)
  {
  }

  /** Rows are rendered independently: the grid of two lists one after the
      other is the first grid's rows followed by the second's. */
  lemma RenderAppend<V>(a: seq<map<string, V>>, b: seq<map<string, V>>, columns: seq<Column>,
                        renderCell: Option<(map<string, V>, Column) -> Option<V>>)
    ensures Render(a + b, columns, renderCell).rows
         == Render(a, columns, renderCell).rows + Render(b, columns, renderCell).rows
  {
    var f := RowOf(columns, renderCell);
    assert Map(a + b, f) == Map(a, f) + Map(b, f);
  }

  /** The grid of a filtered list is an order-preserving selection of the rows
      of the grid of the whole list. */
  lemma RenderSelection<V>(selected: seq<map<string, V>>, data: seq<map<string, V>>, columns: seq<Column>,
                           renderCell: Option<(map<string, V>, Column) -> Option<V>>)
    requires IsSubseq(selected, data)
    ensures IsSubseq(Render(selected, columns, renderCell).rows, Render(data, columns, renderCell).rows)
  {
    MapKeepsSubseq(selected, data, RowOf(columns, renderCell));
  }
}
