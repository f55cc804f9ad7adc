/**
 * The worksheet an Address is bound to. The real `RubyXL::Worksheet` and
 * `RubyXL::Cell` are not part of this model; this class stands in for the
 * three things `Address` asks of them: `worksheet[row]` (a row, or nil),
 * `row[column]` (a cell, or nil), `worksheet.add_cell(row, column, value)` and
 * `cell.change_contents(value)`. Rows are kept as a map from row index to a map
 * from column index to cell, so that a lookup takes the same two steps.
 */
module Grid {
  import opened Wrappers

  /** What a cell may hold; `Nil` is Ruby's nil. */
  datatype Value = Nil | Text(text: string) | Number(number: int) | Flag(flag: bool)

  datatype Cell = Cell(value: Value)

  class Worksheet {
    var rows: map<nat, map<nat, Cell>>

    constructor ()
      ensures rows == map[]
      ensures Cells() == map[]
    {
      rows := map[];
    }

    /** Every cell of the sheet, keyed by (row, column): the flat view of `rows`. */
    function Cells(): (m: map<(nat, nat), Cell>)
      reads this
      ensures forall r: nat, c: nat :: (r, c) in m <==> r in rows && c in rows[r]
      ensures forall r: nat, c: nat :: (r, c) in m ==> m[(r, c)] == rows[r][c]
    {
      var keys := set r, c | r in rows && c in rows[r] :: (r, c);
      map p | p in keys :: rows[p.0][p.1]
    }

    /** A map that agrees with the cells of `rows` key by key is their flat view. */
    lemma SameCells(m: map<(nat, nat), Cell>)
      requires forall r: nat, c: nat :: (r, c) in m <==> r in rows && c in rows[r]
      requires forall r: nat, c: nat :: (r, c) in m ==> m[(r, c)] == rows[r][c]
      ensures Cells() == m
    {
      var cells := Cells();
      forall p: (nat, nat) ensures p in cells <==> p in m {
        assert p == (p.0, p.1);
      }
      forall p | p in m ensures cells[p] == m[p] {
        assert p == (p.0, p.1);
      }
    }

    /** `worksheet[row]`: the cells of a row, or nothing when the row does not exist. */
    function RowAt(r: nat): (row: Option<map<nat, Cell>>)
      reads this
      ensures row.Some? <==> r in rows
      ensures row.Some? ==> forall c: nat :: c in row.value <==> (r, c) in Cells()
      ensures row.Some? ==> forall c: nat :: c in row.value ==> row.value[c] == Cells()[(r, c)]
    {
      if r in rows then Some(rows[r]) else None
    }

    /** `add_cell(row, column, value)`: a new cell holding `value`, creating the row if needed. */
    method AddCell(r: nat, c: nat, v: Value)
      modifies this
      ensures Cells() == old(Cells())[(r, c) := Cell(v)]
    {
      ghost var before := Cells();
      var row := if r in rows then rows[r] else map[];
      rows := rows[r := row[c := Cell(v)]];
      SameCells(before[(r, c) := Cell(v)]);
    }

    /** `cell.change_contents(value)` on the existing cell at (r, c). */
    method ChangeContents(r: nat, c: nat, v: Value)
      requires (r, c) in Cells()
      modifies this
      ensures Cells() == old(Cells())[(r, c) := old(Cells())[(r, c)].(value := v)]
    {
      ghost var before := Cells();
      rows := rows[r := rows[r][c := rows[r][c].(value := v)]];
      SameCells(before[(r, c) := before[(r, c)].(value := v)]);
    }
  }
}
