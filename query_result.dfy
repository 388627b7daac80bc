/** The result of a query: a header (`status`, `rows`, `cols`), a column-name
    array and a row-major matrix of text cells, copied out of the engine's
    tuple table and later released by a NULL-tolerant free.

    The copy's row-pointer array and each row are allocated without being
    cleared, so a copy that stops early (an allocation that fails, or an
    engine error while a cell is converted) leaves slots that were never
    written.  `Unset` and `UnsetRow` stand for such indeterminate memory;
    the `zeroed` switch of the copy selects the cleared allocation that the
    free routine needs (see MallocCopyLeavesGarbage and
    ZeroedCopyIsFreeSafe). */
module QueryResult {
  import opened Common

  /** One `char *` cell: never written, NULL, or a copied string. */
  datatype CellSlot = Unset | NullCell | Text(s: string)

  /** One `char **` row pointer: never written, NULL, or a row of cells. */
  datatype RowSlot = UnsetRow | NullRow | RowCells(cells: seq<CellSlot>)

  /** What the engine's tuple table offers: the attribute names of its
      descriptor, and per tuple the text of each attribute (None = SQL
      NULL). */
  datatype TupleTable = TupleTable(attnames: seq<string>, vals: seq<seq<Option<string>>>)

  /** Every tuple has one value per attribute. */
  predicate WellFormed(t: TupleTable) {
    forall r :: 0 <= r < |t.vals| ==> |t.vals[r]| == |t.attnames|
  }

  /** Which allocations of the copy succeed: the name array, the row-pointer
      array, and every row up to (not including) `failingRow`.  The
      `strdup` of the names in `nameDupFails` and of the cells in
      `cellDupFails` returns NULL, which the copy stores and goes on. */
  datatype CopyAlloc = CopyAlloc(colnamesOk: bool, nameDupFails: set<nat>, valuesOk: bool, failingRow: Option<nat>,
                                 cellDupFails: set<CellPos>)

  /** The cell whose conversion (`SPI_getvalue`) raises, if any. */
  datatype CellPos = CellPos(row: nat, col: nat)

  /** `copy_tuptable`'s 0 and -1 ("Out of memory"), or an engine ERROR that
      unwinds out of it. */
  datatype CopyOutcome = Copied | OutOfMemory | Raised(row: nat, col: nat)

  /** Where the row loop stops. */
  datatype Stop = Done | AllocFailedAt(row: nat) | RaisedAt(row: nat, col: nat)

  const OutOfMemoryMessage: string := "Out of memory"

  /** One converted value as stored: NULL for SQL NULL or a failed
      `strdup`, otherwise the engine's text. */
  function CellOf(v: Option<string>, dupOk: bool): (c: CellSlot)
    ensures c == NullCell <==> v.None? || !dupOk
    ensures v.Some? && dupOk ==> c == Text(v.value)
    ensures c != Unset
  {
    match v
    case None => NullCell
    case Some(s) => if dupOk then Text(s) else NullCell
  }

  /** The copied name of column `c`: NULL when its `strdup` fails. */
  function NameOf(t: TupleTable, alloc: CopyAlloc, c: nat): (n: Option<string>)
    requires c < |t.attnames|
    ensures n.None? <==> c in alloc.nameDupFails
    ensures n.Some? ==> n.value == t.attnames[c]
  {
    if c in alloc.nameDupFails then None else Some(t.attnames[c])
  }

  /** The content of fresh memory. */
  function Blank(zeroed: bool): CellSlot {
    if zeroed then NullCell else Unset
  }

  function BlankRow(zeroed: bool): RowSlot {
    if zeroed then NullRow else UnsetRow
  }

  /** Row `r`, whose first `k` cells were copied from `vals`. */
  function PartialRow(vals: seq<Option<string>>, r: nat, alloc: CopyAlloc, k: nat, zeroed: bool): (cells: seq<CellSlot>)
    ensures |cells| == |vals|
  {
    seq(|vals|, i requires 0 <= i < |vals| =>
      if i < k then CellOf(vals[i], CellPos(r, i) !in alloc.cellDupFails) else Blank(zeroed))
  }

  /** The row loop meets the first failing row allocation or the raising
      cell, whichever comes first; a row is allocated before its cells are
      read. */
  function StopOf(t: TupleTable, alloc: CopyAlloc, raiseAt: Option<CellPos>): (s: Stop)
    ensures s.AllocFailedAt? ==> s.row < |t.vals| && alloc.failingRow == Some(s.row)
    ensures s.RaisedAt? ==> s.row < |t.vals| && s.col < |t.attnames| && raiseAt == Some(CellPos(s.row, s.col))
  {
    var rows := |t.vals|;
    var f := if alloc.failingRow.Some? && alloc.failingRow.value < rows then alloc.failingRow.value else rows;
    var rr := if raiseAt.Some? && raiseAt.value.row < rows && raiseAt.value.col < |t.attnames|
              then raiseAt.value.row else rows;
    if f < rows && f <= rr then AllocFailedAt(f)
    else if rr < rows then RaisedAt(rr, raiseAt.value.col)
    else Done
  }

  function StopRow(s: Stop, rows: nat): nat {
    match s
    case Done => rows
    case AllocFailedAt(r) => r
    case RaisedAt(r, _) => r
  }

  /** The row slot `r` after the copy stopped at `s`: rows before the stop
      are complete, the stopping row is NULL (failed allocation) or
      partial, later rows are untouched. */
  function SlotAfter(t: TupleTable, alloc: CopyAlloc, r: nat, s: Stop, zeroed: bool): RowSlot
    requires r < |t.vals|
  {
    if r < StopRow(s, |t.vals|) then RowCells(PartialRow(t.vals[r], r, alloc, |t.vals[r]|, zeroed))
    else if r > StopRow(s, |t.vals|) then BlankRow(zeroed)
    else match s
      case AllocFailedAt(_) => NullRow
      case RaisedAt(_, c) => RowCells(PartialRow(t.vals[r], r, alloc, c, zeroed))
      case Done => BlankRow(zeroed)
  }

  function OutcomeOf(s: Stop): CopyOutcome {
    match s
    case Done => Copied
    case AllocFailedAt(_) => OutOfMemory
    case RaisedAt(r, c) => Raised(r, c)
  }

  /** A snapshot of the two arrays a result owns (None = NULL pointer). */
  datatype ResultView = ResultView(names: Option<seq<Option<string>>>, slots: Option<seq<RowSlot>>)

  /** The arrays after `copy_tuptable` on a result whose arrays were NULL. */
  function CopiedView(t: TupleTable, alloc: CopyAlloc, raiseAt: Option<CellPos>, zeroed: bool): (v: ResultView)
    ensures v.names.Some? <==> alloc.colnamesOk
    ensures v.slots.Some? <==> alloc.colnamesOk && alloc.valuesOk
    ensures v.names.Some? ==> |v.names.value| == |t.attnames|
    ensures v.slots.Some? ==> |v.slots.value| == |t.vals|
  {
    if !alloc.colnamesOk then ResultView(None, None)
    else
      var names := seq(|t.attnames|, c requires 0 <= c < |t.attnames| => NameOf(t, alloc, c));
      if !alloc.valuesOk then ResultView(Some(names), None)
      else
        var s := StopOf(t, alloc, raiseAt);
        ResultView(Some(names), Some(seq(|t.vals|, r requires 0 <= r < |t.vals| => SlotAfter(t, alloc, r, s, zeroed))))
  }

  /** `pg_embedded_free_result` reads no indeterminate slot. */
  predicate FreeSafe(v: ResultView) {
    v.slots.Some? ==>
      forall r :: 0 <= r < |v.slots.value| ==>
        v.slots.value[r] != UnsetRow &&
        (v.slots.value[r].RowCells? ==> Unset !in v.slots.value[r].cells)
  }

  /** A `pg_result`. */
  class PgResult {
    var status: int
    var rows: nat
    var cols: nat
    var colnames: array?<Option<string>>
    var values: array?<RowSlot>

    /** The arrays have the lengths the header gives. */
    ghost predicate Valid()
      reads this, values
    {
      (colnames != null ==> colnames.Length == cols) &&
      (values != null ==>
        values.Length == rows &&
        forall r :: 0 <= r < values.Length && values[r].RowCells? ==> |values[r].cells| == cols)
    }

    function View(): ResultView
      reads this, colnames, values
    {
      ResultView(if colnames == null then None else Some(colnames[..]),
                 if values == null then None else Some(values[..]))
    }

    /** `malloc` followed by `memset(result, 0, ...)`. */
    constructor ()
      ensures Valid()
      ensures status == 0 && rows == 0 && cols == 0 && colnames == null && values == null
    {
      status := 0;
      rows := 0;
      cols := 0;
      colnames := null;
      values := null;
    }

    /** `copy_tuptable`: copy the column names, then the matrix row by row,
        each cell NULL exactly when the engine's value is NULL or its
        `strdup` fails.  `zeroed`
        false is the code as written (uncleared allocations); true is the
        cleared allocation the rest of the model uses. */
    method CopyTuptable(t: TupleTable, alloc: CopyAlloc, raiseAt: Option<CellPos>, zeroed: bool)
      returns (outcome: CopyOutcome)
      requires WellFormed(t) && rows == |t.vals| && cols == |t.attnames|
      requires colnames == null && values == null
      modifies this
      ensures Valid()
      ensures status == old(status) && rows == old(rows) && cols == old(cols)
      ensures colnames != null ==> fresh(colnames)
      ensures values != null ==> fresh(values)
      ensures View() == CopiedView(t, alloc, raiseAt, zeroed)
      ensures outcome ==
        if !alloc.colnamesOk || !alloc.valuesOk then OutOfMemory else OutcomeOf(StopOf(t, alloc, raiseAt))
    {
      if !alloc.colnamesOk {
        return OutOfMemory;
      }
      var names := new Option<string>[cols];
      colnames := names;
      var col := 0;
      while col < cols
        modifies names
        invariant 0 <= col <= cols == names.Length
        invariant forall c :: 0 <= c < col ==> names[c] == NameOf(t, alloc, c)
      {
        names[col] := if col in alloc.nameDupFails then None else Some(t.attnames[col]);
        col := col + 1;
      }
      assert names[..] == CopiedView(t, alloc, raiseAt, zeroed).names.value;
      if !alloc.valuesOk {
        return OutOfMemory;
      }
      var slots := new RowSlot[rows](_ => BlankRow(zeroed));
      values := slots;
      outcome := CopyRows(slots, t, alloc, raiseAt, zeroed);
      assert slots[..] == CopiedView(t, alloc, raiseAt, zeroed).slots.value;
    }
  }

  /** The row loop of `copy_tuptable`, over the freshly allocated
      row-pointer array. */
  method CopyRows(slots: array<RowSlot>, t: TupleTable, alloc: CopyAlloc, raiseAt: Option<CellPos>, zeroed: bool)
    returns (outcome: CopyOutcome)
    requires WellFormed(t) && slots.Length == |t.vals|
    requires forall r :: 0 <= r < slots.Length ==> slots[r] == BlankRow(zeroed)
    modifies slots
    ensures outcome == OutcomeOf(StopOf(t, alloc, raiseAt))
    ensures forall r :: 0 <= r < slots.Length ==> slots[r] == SlotAfter(t, alloc, r, StopOf(t, alloc, raiseAt), zeroed)
  {
    var s := StopOf(t, alloc, raiseAt);
    var row := 0;
    while row < slots.Length
      invariant 0 <= row <= StopRow(s, |t.vals|)
      invariant forall r :: 0 <= r < row ==> slots[r] == SlotAfter(t, alloc, r, s, zeroed)
      invariant forall r :: row <= r < slots.Length ==> slots[r] == BlankRow(zeroed)
    {
      if alloc.failingRow == Some(row) {
        slots[row] := NullRow;
        return OutOfMemory;
      }
      var vals := t.vals[row];
      slots[row] := RowCells(PartialRow(vals, row, alloc, 0, zeroed));
      ghost var before := slots[..];
      var c := 0;
      while c < |vals|
        invariant 0 <= c <= |vals|
        invariant slots[row] == RowCells(PartialRow(vals, row, alloc, c, zeroed))
        invariant forall r :: 0 <= r < slots.Length && r != row ==> slots[r] == before[r]
        invariant raiseAt.Some? && raiseAt.value.row == row ==> c <= raiseAt.value.col
      {
        if raiseAt == Some(CellPos(row, c)) {
          return Raised(row, c);
        }
        slots[row] := RowCells(slots[row].cells[c := CellOf(vals[c], CellPos(row, c) !in alloc.cellDupFails)]);
        c := c + 1;
      }
      row := row + 1;
    }
    return Copied;
  }

  // ---------------------------------------------------------------------
  // Freeing
  // ---------------------------------------------------------------------

  /** A heap block owned by a result. */
  datatype Block =
    | NameBlock(col: nat) | NamesArray
    | CellBlock(row: nat, col: nat) | RowBlock(row: nat) | ValuesArray
    | ResultBlock

  predicate NoDuplicates(bs: seq<Block>) {
    forall i, j :: 0 <= i < j < |bs| ==> bs[i] != bs[j]
  }

  /** What a (non-NULL) result owns. */
  predicate Owned(v: ResultView, b: Block) {
    match b
    case NameBlock(c) => v.names.Some? && c < |v.names.value| && v.names.value[c].Some?
    case NamesArray => v.names.Some?
    case CellBlock(r, c) =>
      v.slots.Some? && r < |v.slots.value| && v.slots.value[r].RowCells? &&
      c < |v.slots.value[r].cells| && v.slots.value[r].cells[c].Text?
    case RowBlock(r) => v.slots.Some? && r < |v.slots.value| && v.slots.value[r].RowCells?
    case ValuesArray => v.slots.Some?
    case ResultBlock => true
  }

  /** The non-NULL names, in order. */
  function NamesFreed(names: seq<Option<string>>): (bs: seq<Block>)
    ensures NoDuplicates(bs)
    ensures forall b :: b in bs <==> b.NameBlock? && b.col < |names| && names[b.col].Some?
  {
    if |names| == 0 then []
    else
      var k := |names| - 1;
      var prefix := NamesFreed(names[..k]);
      assert forall c :: 0 <= c < k ==> names[..k][c] == names[c];
      prefix + (if names[k].Some? then [NameBlock(k)] else [])
  }

  /** The non-NULL cells of row `r`, in order; None when an indeterminate
      cell is read. */
  function CellsFreed(r: nat, cells: seq<CellSlot>): (bs: Option<seq<Block>>)
    ensures bs.None? <==> Unset in cells
    ensures bs.Some? ==> NoDuplicates(bs.value)
    ensures bs.Some? ==> forall b :: b in bs.value <==> b.CellBlock? && b.row == r && b.col < |cells| && cells[b.col].Text?
  {
    if |cells| == 0 then Some([])
    else
      var k := |cells| - 1;
      assert cells == cells[..k] + [cells[k]];
      assert forall c :: 0 <= c < k ==> cells[..k][c] == cells[c];
      match CellsFreed(r, cells[..k])
      case None => None
      case Some(prefix) =>
        if cells[k] == Unset then None
        else Some(prefix + (if cells[k].Text? then [CellBlock(r, k)] else []))
  }

  /** Every non-NULL row: its cells, then the row itself. */
  function RowsFreed(slots: seq<RowSlot>): (bs: Option<seq<Block>>) {
    if |slots| == 0 then Some([])
    else
      var k := |slots| - 1;
      match RowsFreed(slots[..k])
      case None => None
      case Some(prefix) =>
        match slots[k]
        case UnsetRow => None
        case NullRow => Some(prefix)
        case RowCells(cells) =>
          match CellsFreed(k, cells)
          case None => None
          case Some(cs) => Some(prefix + cs + [RowBlock(k)])
  }

  datatype FreeOutcome = Freed(blocks: seq<Block>) | ReadsIndeterminate

  /** The column names, then the name array. */
  function NamesPart(names: Option<seq<Option<string>>>): seq<Block> {
    if names.Some? then NamesFreed(names.value) + [NamesArray] else []
  }

  /** The rows, then the row-pointer array; None when an indeterminate
      slot is read. */
  function ValuesPart(slots: Option<seq<RowSlot>>): Option<seq<Block>> {
    if slots.None? then Some([])
    else
      match RowsFreed(slots.value)
      case None => None
      case Some(rs) => Some(rs + [ValuesArray])
  }

  /** `pg_embedded_free_result` on a non-NULL result: names, name array,
      rows, row array, the record. */
  function FreeSpec(v: ResultView): (f: FreeOutcome)
    ensures f.Freed? <==> FreeSafe(v)
    ensures f.Freed? ==> |f.blocks| > 0 && f.blocks[|f.blocks| - 1] == ResultBlock
  {
    RowsFreedDefined(v.slots.GetOr([]));
    match ValuesPart(v.slots)
    case None => ReadsIndeterminate
    case Some(vs) => Freed(NamesPart(v.names) + vs + [ResultBlock])
  }

  /** Freeing is well defined exactly when no indeterminate slot is
      reachable. */
  lemma {:induction false} RowsFreedDefined(slots: seq<RowSlot>)
    ensures RowsFreed(slots).Some? <==> FreeSafe(ResultView(None, Some(slots)))
  {
    if |slots| > 0 {
      var k := |slots| - 1;
      RowsFreedDefined(slots[..k]);
      assert forall r :: 0 <= r < k ==> slots[..k][r] == slots[r];
    }
  }

  /** The row part frees each owned cell and row exactly once. */
  lemma {:induction false} RowsFreedExactly(slots: seq<RowSlot>)
    requires RowsFreed(slots).Some?
    ensures NoDuplicates(RowsFreed(slots).value)
    ensures forall b :: b in RowsFreed(slots).value <==>
      (b.CellBlock? || b.RowBlock?) && Owned(ResultView(None, Some(slots)), b)
  {
    if |slots| > 0 {
      var k := |slots| - 1;
      RowsFreedExactly(slots[..k]);
      assert forall r :: 0 <= r < k ==> slots[..k][r] == slots[r];
      var prefix := RowsFreed(slots[..k]).value;
      assert forall b :: b in prefix ==> b.row < k;
      if slots[k].RowCells? {
        var cs := CellsFreed(k, slots[k].cells).value;
        var tail := cs + [RowBlock(k)];
        assert forall b :: b in tail ==> b.row == k;
        assert forall i :: 0 <= i < |prefix| ==> prefix[i] !in tail;
        NoDuplicatesConcat(prefix, tail);
        assert RowsFreed(slots).value == prefix + tail;
      }
    }
  }

  lemma NoDuplicatesConcat(a: seq<Block>, b: seq<Block>)
    requires NoDuplicates(a) && NoDuplicates(b)
    requires forall i :: 0 <= i < |a| ==> a[i] !in b
    ensures NoDuplicates(a + b)
  {
    forall i, j | 0 <= i < j < |a + b|
      ensures (a + b)[i] != (a + b)[j]
    {
      if j >= |a| && i < |a| {
        assert (a + b)[j] == b[j - |a|];
      }
    }
  }

  lemma NamesPartExactly(v: ResultView)
    ensures NoDuplicates(NamesPart(v.names))
    ensures forall b :: b in NamesPart(v.names) <==> (b.NameBlock? || b.NamesArray?) && Owned(v, b)
  {
    if v.names.Some? {
      var nf := NamesFreed(v.names.value);
      assert forall i :: 0 <= i < |nf| ==> nf[i] in nf && nf[i].NameBlock?;
      NoDuplicatesConcat(nf, [NamesArray]);
    }
  }

  lemma ValuesPartExactly(v: ResultView)
    requires FreeSafe(v)
    ensures ValuesPart(v.slots).Some?
    ensures NoDuplicates(ValuesPart(v.slots).value)
    ensures forall b :: b in ValuesPart(v.slots).value <==>
      (b.CellBlock? || b.RowBlock? || b.ValuesArray?) && Owned(v, b)
  {
    if v.slots.Some? {
      RowsFreedDefined(v.slots.value);
      RowsFreedExactly(v.slots.value);
      var rs := RowsFreed(v.slots.value).value;
      assert forall i :: 0 <= i < |rs| ==> rs[i].CellBlock? || rs[i].RowBlock?;
      NoDuplicatesConcat(rs, [ValuesArray]);
    }
  }

  /** Free is defined on every safe result and then releases each owned
      block exactly once: no leak and no double free. */
  lemma FreeReleasesOwnedOnce(v: ResultView)
    requires FreeSafe(v)
    ensures FreeSpec(v).Freed?
    ensures NoDuplicates(FreeSpec(v).blocks)
    ensures forall b :: b in FreeSpec(v).blocks <==> Owned(v, b)
  {
    NamesPartExactly(v);
    ValuesPartExactly(v);
    var ns := NamesPart(v.names);
    var vs := ValuesPart(v.slots).value;
    assert FreeSpec(v).blocks == ns + vs + [ResultBlock];
    FreeNoDuplicates(v, ns, vs);
    forall b
      ensures b in ns + vs + [ResultBlock] <==> Owned(v, b)
    {
      assert b in ns + vs + [ResultBlock] <==> b in ns || b in vs || b == ResultBlock;
    }
  }

  /** The three parts of a free release blocks of different kinds. */
  lemma FreeNoDuplicates(v: ResultView, ns: seq<Block>, vs: seq<Block>)
    requires NoDuplicates(ns) && forall b :: b in ns ==> b.NameBlock? || b.NamesArray?
    requires NoDuplicates(vs) && forall b :: b in vs ==> b.CellBlock? || b.RowBlock? || b.ValuesArray?
    ensures NoDuplicates(ns + vs + [ResultBlock])
  {
    assert forall i :: 0 <= i < |ns| ==> ns[i] in ns;
    NoDuplicatesConcat(ns, vs);
    assert forall i :: 0 <= i < |ns + vs| ==> (ns + vs)[i] in ns + vs;
    NoDuplicatesConcat(ns + vs, [ResultBlock]);
  }

  /** A free that meets an indeterminate slot is undefined. */
  lemma FreeUnsafeIsUndefined(v: ResultView)
    requires !FreeSafe(v)
    ensures FreeSpec(v) == ReadsIndeterminate
  {
    RowsFreedDefined(v.slots.value);
  }

  /** `pg_embedded_free_result`: NULL frees nothing; otherwise the names,
      the name array, the rows, the row array and the record, in order. */
  method FreeResult(result: PgResult?) returns (outcome: FreeOutcome)
    requires result != null ==> result.Valid()
    ensures result == null ==> outcome == Freed([])
    ensures result != null ==> outcome == FreeSpec(result.View())
  {
    if result == null {
      return Freed([]);
    }
    var freed: seq<Block> := [];
    if result.colnames != null {
      var names := FreeNames(result.colnames, result.cols);
      freed := names + [NamesArray];
    }
    if result.values != null {
      var rows := FreeRows(result.values, result.rows, result.cols);
      if rows.None? {
        return ReadsIndeterminate;
      }
      freed := freed + (rows.value + [ValuesArray]);
    }
    outcome := Freed(freed + [ResultBlock]);
  }

  /** The loop over the column names. */
  method FreeNames(names: array<Option<string>>, cols: nat) returns (freed: seq<Block>)
    requires names.Length == cols
    ensures freed == NamesFreed(names[..])
  {
    freed := [];
    var col := 0;
    while col < cols
      invariant 0 <= col <= cols
      invariant freed == NamesFreed(names[..col])
    {
      assert names[..col + 1][..col] == names[..col];
      if names[col].Some? {
        freed := freed + [NameBlock(col)];
      }
      col := col + 1;
    }
    assert names[..col] == names[..];
  }

  /** The loop over the rows; None once an indeterminate slot is read. */
  method FreeRows(slots: array<RowSlot>, rows: nat, cols: nat) returns (freed: Option<seq<Block>>)
    requires slots.Length == rows
    requires forall r :: 0 <= r < rows && slots[r].RowCells? ==> |slots[r].cells| == cols
    ensures freed == RowsFreed(slots[..])
  {
    var row := 0;
    var rowsFreed: seq<Block> := [];
    while row < rows
      invariant 0 <= row <= rows
      invariant RowsFreed(slots[..row]) == Some(rowsFreed)
    {
      assert slots[..row + 1][..row] == slots[..row];
      match slots[row] {
      case UnsetRow =>
        RowsFreedPrefix(slots[..], row + 1);
        return None;
      case NullRow =>
      case RowCells(cells) =>
        var cellsFreed := FreeCells(row, cells, cols);
        if cellsFreed.None? {
          RowsFreedPrefix(slots[..], row + 1);
          return None;
        }
        rowsFreed := rowsFreed + cellsFreed.value + [RowBlock(row)];
      }
      row := row + 1;
    }
    assert slots[..row] == slots[..];
    freed := Some(rowsFreed);
  }

  /** The loop over the cells of one row; None once an indeterminate cell
      is read. */
  method FreeCells(row: nat, cells: seq<CellSlot>, cols: nat) returns (freed: Option<seq<Block>>)
    requires |cells| == cols
    ensures freed == CellsFreed(row, cells)
  {
    var cellsFreed: seq<Block> := [];
    var col := 0;
    while col < cols
      invariant 0 <= col <= cols
      invariant CellsFreed(row, cells[..col]) == Some(cellsFreed)
    {
      CellsFreedStep(row, cells, col);
      if cells[col] == Unset {
        assert cells[..col + 1] <= cells;
        return None;
      }
      if cells[col].Text? {
        cellsFreed := cellsFreed + [CellBlock(row, col)];
      } else {
        assert cellsFreed + [] == cellsFreed;
      }
      col := col + 1;
    }
    assert cells[..col] == cells;
    freed := Some(cellsFreed);
  }

  lemma CellsFreedStep(r: nat, cells: seq<CellSlot>, n: nat)
    requires n < |cells|
    ensures CellsFreed(r, cells[..n + 1]) ==
      match CellsFreed(r, cells[..n])
      case None => None
      case Some(p) => if cells[n] == Unset then None else Some(p + (if cells[n].Text? then [CellBlock(r, n)] else []))
  {
    assert cells[..n + 1][..n] == cells[..n];
  }

  /** Once a prefix of the rows is undefined to free, so are all rows. */
  lemma {:induction false} RowsFreedPrefix(slots: seq<RowSlot>, n: nat)
    requires n <= |slots| && RowsFreed(slots[..n]).None?
    ensures RowsFreed(slots).None?
    decreases |slots| - n
  {
    if n < |slots| {
      assert slots[..n + 1][..n] == slots[..n];
      RowsFreedPrefix(slots, n + 1);
    } else {
      assert slots[..n] == slots;
    }
  }

  // ---------------------------------------------------------------------
  // The copy and the free together
  // ---------------------------------------------------------------------

  /** A complete copy holds, in every cell, NULL exactly when the engine's
      value is NULL or its `strdup` failed, and otherwise the engine's
      text; likewise for the column names. */
  lemma CompleteCopyMirrorsEngine(t: TupleTable, alloc: CopyAlloc, raiseAt: Option<CellPos>, zeroed: bool, r: nat, c: nat)
    requires WellFormed(t) && alloc.colnamesOk && alloc.valuesOk && StopOf(t, alloc, raiseAt) == Done
    requires r < |t.vals| && c < |t.attnames|
    ensures CopiedView(t, alloc, raiseAt, zeroed).names.value[c].None? <==> c in alloc.nameDupFails
    ensures c !in alloc.nameDupFails ==> CopiedView(t, alloc, raiseAt, zeroed).names.value[c] == Some(t.attnames[c])
    ensures CopiedView(t, alloc, raiseAt, zeroed).slots.value[r] ==
      RowCells(PartialRow(t.vals[r], r, alloc, |t.attnames|, zeroed))
    ensures CopiedView(t, alloc, raiseAt, zeroed).slots.value[r].cells[c] == NullCell <==>
      t.vals[r][c].None? || CellPos(r, c) in alloc.cellDupFails
    ensures t.vals[r][c].Some? && CellPos(r, c) !in alloc.cellDupFails ==>
      CopiedView(t, alloc, raiseAt, zeroed).slots.value[r].cells[c] == Text(t.vals[r][c].value)
  {
  }

  /** With cleared allocations every copy, however it stops, can be
      freed. */
  lemma ZeroedCopyIsFreeSafe(t: TupleTable, alloc: CopyAlloc, raiseAt: Option<CellPos>)
    requires WellFormed(t)
    ensures FreeSafe(CopiedView(t, alloc, raiseAt, true))
  {
    var v := CopiedView(t, alloc, raiseAt, true);
    if v.slots.Some? {
      forall r | 0 <= r < |v.slots.value|
        ensures v.slots.value[r] != UnsetRow
        ensures v.slots.value[r].RowCells? ==> Unset !in v.slots.value[r].cells
      {
        var s := StopOf(t, alloc, raiseAt);
        assert v.slots.value[r] == SlotAfter(t, alloc, r, s, true);
        if v.slots.value[r].RowCells? {
          var cells := v.slots.value[r].cells;
          assert forall i :: 0 <= i < |cells| ==> cells[i] != Unset;
        }
      }
    }
  }

  /** As written, a row allocation that fails on the first of two rows
      leaves the second row pointer indeterminate, and the free that the
      caller then runs reads it. */
  lemma MallocCopyLeavesGarbage()
    ensures
      var t := TupleTable(["a"], [[Some("1")], [Some("2")]]);
      var v := CopiedView(t, CopyAlloc(true, {}, true, Some(0), {}), None, false);
      v.slots == Some([NullRow, UnsetRow]) && !FreeSafe(v) && FreeSpec(v) == ReadsIndeterminate
  {
    var t := TupleTable(["a"], [[Some("1")], [Some("2")]]);
    var v := CopiedView(t, CopyAlloc(true, {}, true, Some(0), {}), None, false);
    assert StopOf(t, CopyAlloc(true, {}, true, Some(0), {}), None) == AllocFailedAt(0);
    assert v.slots.value[0] == NullRow;
    assert v.slots.value[1] == UnsetRow;
    assert v.slots.value == [NullRow, UnsetRow];
    FreeUnsafeIsUndefined(v);
  }
}
