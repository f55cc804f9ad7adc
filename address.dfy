/**
 * `RubyXL::Address` (lib/rubyXL/address.rb): a cell coordinate bound to a
 * worksheet. Its three fields are `worksheet`, `row` and `column`; row and
 * column are zero-based and never negative, which the type `nat` records.
 *
 * `AddressValue` is the value an Address holds. Its functions give the meaning
 * of the operations that build a new Address (`row(x)`, `column(x)`,
 * `worksheet(w)`, `up`, `down`, `left`, `right`); the class `Address` has the
 * operations themselves, the setters and the bang forms that update the
 * receiver in place, and the accessors that go through the worksheet.
 */
module RubyXL {
  import opened Wrappers
  import opened Reference
  import Grid

  datatype AddressValue = AddressValue(worksheet: Grid.Worksheet, row: nat, column: nat) {

    /** `Address.new(worksheet, ref:, row:, column:)`: a reference, when given,
        supplies both coordinates; otherwise row and column are normalised in
        that order. A missing coordinate (Ruby's nil) is not an index or a
        label. */
    static function Build(worksheet: Grid.Worksheet, ref: Option<string>, row: Option<Coord>, column: Option<Coord>)
      : (r: Result<AddressValue, Error>)
      ensures ref.Some? ==> (r.Ok? <==> ParseCellRef(ref.value).Ok?)
      ensures ref.Some? && r.Ok? ==>
        r.value.worksheet == worksheet && CellRef(r.value.row, r.value.column) == ref.value
      ensures ref.None? ==>
        (r.Ok? <==> row.Some? && column.Some? && NormalizeRow(row.value).Ok? && NormalizeColumn(column.value).Ok?)
      ensures ref.None? && r.Ok? ==>
        r.value == AddressValue(worksheet, NormalizeRow(row.value).value, NormalizeColumn(column.value).value)
      ensures r.Err? ==>
        (r.error == TypeMismatch <==> ref.None? && (row.None? || (NormalizeRow(row.value).Ok? && column.None?)))
    {
      if ref.Some? then
        match ParseCellRef(ref.value)
        case Err(e) => Err(e)
        case Ok(rc) =>
          CellRefCanonical(ref.value);
          Assign(worksheet, Some(Index(rc.0)), Some(Index(rc.1)))
      else
        Assign(worksheet, row, column)
    }

    /** The two setter calls at the end of `initialize`: `self.row = row`, then
        `self.column = column`. Nil fails as a type error before normalisation
        is tried, and the row is normalised (and may fail) first. */
    static function Assign(worksheet: Grid.Worksheet, row: Option<Coord>, column: Option<Coord>)
      : (r: Result<AddressValue, Error>)
      ensures r.Ok? <==> row.Some? && column.Some? && NormalizeRow(row.value).Ok? && NormalizeColumn(column.value).Ok?
      ensures r.Ok? ==>
        r.value == AddressValue(worksheet, NormalizeRow(row.value).value, NormalizeColumn(column.value).value)
      ensures r.Err? ==>
        (r.error == TypeMismatch <==> row.None? || (NormalizeRow(row.value).Ok? && column.None?))
      ensures r.Err? && r.error == InvalidArgument ==>
        (NormalizeRow(row.value).Err? || NormalizeColumn(column.value).Err?)
    {
      if row.None? then Err(TypeMismatch)
      else
        match NormalizeRow(row.value)
        case Err(e) => Err(e)
        case Ok(r) =>
          if column.None? then Err(TypeMismatch)
          else
            match NormalizeColumn(column.value)
            case Err(e) => Err(e)
            case Ok(c) => Ok(AddressValue(worksheet, r, c))
    }

    /** `worksheet(w)`: the same coordinates on another worksheet. */
    function WithWorksheet(w: Grid.Worksheet): (a: AddressValue)
      ensures a == this.(worksheet := w)
    {
      Build(w, None, Some(Index(row)), Some(Index(column))).value
    }

    /** `row(x)`: only the row is replaced, by the normalised x. */
    function WithRow(x: Coord): (r: Result<AddressValue, Error>)
      ensures r.Ok? <==> NormalizeRow(x).Ok?
      ensures r.Ok? ==> r.value == this.(row := NormalizeRow(x).value)
      ensures r.Err? ==> r.error == InvalidArgument
    {
      Build(worksheet, None, Some(x), Some(Index(column)))
    }

    /** `column(x)`: only the column is replaced, by the normalised x. */
    function WithColumn(x: Coord): (r: Result<AddressValue, Error>)
      ensures r.Ok? <==> NormalizeColumn(x).Ok?
      ensures r.Ok? ==> r.value == this.(column := NormalizeColumn(x).value)
      ensures r.Err? ==> r.error == InvalidArgument
    {
      Build(worksheet, None, Some(Index(row)), Some(x))
    }

    /** `up(amount)`: `amount` rows towards row 0; refused past it. */
    function Up(amount: int := 1): (r: Result<AddressValue, Error>)
      ensures r.Ok? <==> row - amount >= 0
      ensures r.Ok? ==> r.value.row == row - amount && r.value.column == column && r.value.worksheet == worksheet
      ensures r.Err? ==> r.error == InvalidArgument
    {
      WithRow(Index(row - amount))
    }

    /** `down(amount)`: `amount` rows away from row 0. */
    function Down(amount: int := 1): (r: Result<AddressValue, Error>)
      ensures r.Ok? <==> row + amount >= 0
      ensures r.Ok? ==> r.value.row == row + amount && r.value.column == column && r.value.worksheet == worksheet
      ensures r.Err? ==> r.error == InvalidArgument
    {
      WithRow(Index(row + amount))
    }

    /** `left(amount)`: `amount` columns towards column 0; refused past it. */
    function Left(amount: int := 1): (r: Result<AddressValue, Error>)
      ensures r.Ok? <==> column - amount >= 0
      ensures r.Ok? ==> r.value.column == column - amount && r.value.row == row && r.value.worksheet == worksheet
      ensures r.Err? ==> r.error == InvalidArgument
    {
      WithColumn(Index(column - amount))
    }

    /** `right(amount)`: `amount` columns away from column 0. */
    function Right(amount: int := 1): (r: Result<AddressValue, Error>)
      ensures r.Ok? <==> column + amount >= 0
      ensures r.Ok? ==> r.value.column == column + amount && r.value.row == row && r.value.worksheet == worksheet
      ensures r.Err? ==> r.error == InvalidArgument
    {
      WithColumn(Index(column + amount))
    }
  }

  // ------------------------------------------------------ navigation laws

  /** Going down undoes going up, and going up by 0 stays put. */
  lemma UpThenDown(a: AddressValue, n: int)
    ensures a.Up(n).Ok? ==> a.Up(n).value.Down(n) == Ok(a)
    ensures a.Up(0) == Ok(a)
  {
  }

  /** Going right undoes going left, and going left by 0 stays put. */
  lemma LeftThenRight(a: AddressValue, n: int)
    ensures a.Left(n).Ok? ==> a.Left(n).value.Right(n) == Ok(a)
    ensures a.Left(0) == Ok(a)
  {
  }

  /** A negative amount moves the other way. */
  lemma NegativeAmountReverses(a: AddressValue, n: int)
    ensures a.Up(-n) == a.Down(n)
    ensures a.Left(-n) == a.Right(n)
  {
  }

  /** An Address built from the reference another one renders is that Address. */
  lemma BuildFromRef(a: AddressValue)
    ensures AddressValue.Build(a.worksheet, Some(CellRef(a.row, a.column)), None, None) == Ok(a)
  {
  }

  // ---------------------------------------------------------------- class

  class Address {
    var worksheet: Grid.Worksheet
    var row: nat
    var column: nat

    /** The value this Address holds. */
    function View(): AddressValue
      reads this
    {
      AddressValue(worksheet, row, column)
    }

    /** The value an Address returned in a `Result` holds. */
    static function ResultView(r: Result<Address, Error>): (v: Result<AddressValue, Error>)
      reads if r.Ok? then {r.value} else {}
    {
      match r
      case Ok(a) => Ok(a.View())
      case Err(e) => Err(e)
    }

    constructor Init(worksheet: Grid.Worksheet, row: nat, column: nat)
      ensures View() == AddressValue(worksheet, row, column)
    {
      this.worksheet, this.row, this.column := worksheet, row, column;
    }

    /** `Address.new(worksheet, ref:, row:, column:)`: `initialize` stores the
        worksheet, reads the reference if one is given, then goes through the
        row and column setters; any failure means no Address. */
    static method New(worksheet: Grid.Worksheet, ref: Option<string>, row: Option<Coord>, column: Option<Coord>)
      returns (r: Result<Address, Error>)
      ensures r.Ok? ==> fresh(r.value)
      ensures ResultView(r) == AddressValue.Build(worksheet, ref, row, column)
    {
      var rowIn, columnIn := row, column;
      if ref.Some? {
        var rc := ParseCellRef(ref.value);
        if rc.Err? {
          return Err(rc.error);
        }
        CellRefCanonical(ref.value);
        rowIn, columnIn := Some(Index(rc.value.0)), Some(Index(rc.value.1));
      }
      var a := new Address.Init(worksheet, 0, 0);
      if rowIn.None? {
        return Err(TypeMismatch);
      }
      var o := a.SetRow(rowIn.value);
      if o.Fail? {
        return Err(o.error);
      }
      if columnIn.None? {
        return Err(TypeMismatch);
      }
      o := a.SetColumn(columnIn.value);
      if o.Fail? {
        return Err(o.error);
      }
      r := Ok(a);
    }

    /** `worksheet = w` (the attribute writer). */
    method SetWorksheet(w: Grid.Worksheet)
      modifies this
      ensures View() == old(View()).WithWorksheet(w)
    {
      worksheet := w;
    }

    /** `row = x`: stores the normalised x; on failure the row is not written. */
    method SetRow(x: Coord) returns (o: Outcome<Error>)
      modifies this
      ensures NormalizeRow(x).Ok? ==> o == Pass && View() == old(View()).(row := NormalizeRow(x).value)
      ensures NormalizeRow(x).Err? ==> o == Fail(NormalizeRow(x).error) && View() == old(View())
    {
      var n := NormalizeRow(x);
      if n.Err? {
        return Fail(n.error);
      }
      row := n.value;
      o := Pass;
    }

    /** `column = x`: stores the normalised x; on failure the column is not written. */
    method SetColumn(x: Coord) returns (o: Outcome<Error>)
      modifies this
      ensures NormalizeColumn(x).Ok? ==> o == Pass && View() == old(View()).(column := NormalizeColumn(x).value)
      ensures NormalizeColumn(x).Err? ==> o == Fail(NormalizeColumn(x).error) && View() == old(View())
    {
      var n := NormalizeColumn(x);
      if n.Err? {
        return Fail(n.error);
      }
      column := n.value;
      o := Pass;
    }

    /** `worksheet(w)`: a new Address on worksheet w; this one is untouched. */
    method WithWorksheet(w: Grid.Worksheet) returns (a: Address)
      ensures fresh(a)
      ensures a.View() == View().WithWorksheet(w)
    {
      var r := New(w, None, Some(Index(row)), Some(Index(column)));
      a := r.value;
    }

    /** `row(x)`: a new Address with the row replaced; this one is untouched. */
    method WithRow(x: Coord) returns (r: Result<Address, Error>)
      ensures r.Ok? ==> fresh(r.value)
      ensures ResultView(r) == View().WithRow(x)
    {
      r := New(worksheet, None, Some(x), Some(Index(column)));
    }

    /** `column(x)`: a new Address with the column replaced; this one is untouched. */
    method WithColumn(x: Coord) returns (r: Result<Address, Error>)
      ensures r.Ok? ==> fresh(r.value)
      ensures ResultView(r) == View().WithColumn(x)
    {
      r := New(worksheet, None, Some(Index(row)), Some(x));
    }

    /** `ref`: the textual reference, e.g. "A1" for row 0, column 0. */
    function Ref(): (s: string)
      reads this
      ensures ParseCellRef(s) == Ok((row, column))
      ensures s == ColumnIndexToRef(column) + RowIndexToRef(row)
    {
      CellRef(row, column)
    }

    /** `up(amount)`: a new Address `amount` rows up. */
    method Up(amount: int := 1) returns (r: Result<Address, Error>)
      ensures r.Ok? ==> fresh(r.value)
      ensures ResultView(r) == View().Up(amount)
    {
      r := WithRow(Index(row - amount));
    }

    /** `down(amount)`: a new Address `amount` rows down. */
    method Down(amount: int := 1) returns (r: Result<Address, Error>)
      ensures r.Ok? ==> fresh(r.value)
      ensures ResultView(r) == View().Down(amount)
    {
      r := WithRow(Index(row + amount));
    }

    /** `left(amount)`: a new Address `amount` columns left. */
    method Left(amount: int := 1) returns (r: Result<Address, Error>)
      ensures r.Ok? ==> fresh(r.value)
      ensures ResultView(r) == View().Left(amount)
    {
      r := WithColumn(Index(column - amount));
    }

    /** `right(amount)`: a new Address `amount` columns right. */
    method Right(amount: int := 1) returns (r: Result<Address, Error>)
      ensures r.Ok? ==> fresh(r.value)
      ensures ResultView(r) == View().Right(amount)
    {
      r := WithColumn(Index(column + amount));
    }

    /** `up!(amount)`: moves this Address up and returns it; on failure nothing changes. */
    method MoveUp(amount: int := 1) returns (r: Result<Address, Error>)
      modifies this
      ensures old(View()).Up(amount).Ok? ==> r == Ok(this) && View() == old(View()).Up(amount).value
      ensures old(View()).Up(amount).Err? ==> r == Err(InvalidArgument) && View() == old(View())
    {
      var o := SetRow(Index(row - amount));
      r := if o.Pass? then Ok(this) else Err(o.error);
    }

    /** `down!(amount)`: moves this Address down and returns it. */
    method MoveDown(amount: int := 1) returns (r: Result<Address, Error>)
      modifies this
      ensures old(View()).Down(amount).Ok? ==> r == Ok(this) && View() == old(View()).Down(amount).value
      ensures old(View()).Down(amount).Err? ==> r == Err(InvalidArgument) && View() == old(View())
    {
      var o := SetRow(Index(row + amount));
      r := if o.Pass? then Ok(this) else Err(o.error);
    }

    /** `left!(amount)`: moves this Address left and returns it; on failure nothing changes. */
    method MoveLeft(amount: int := 1) returns (r: Result<Address, Error>)
      modifies this
      ensures old(View()).Left(amount).Ok? ==> r == Ok(this) && View() == old(View()).Left(amount).value
      ensures old(View()).Left(amount).Err? ==> r == Err(InvalidArgument) && View() == old(View())
    {
      var o := SetColumn(Index(column - amount));
      r := if o.Pass? then Ok(this) else Err(o.error);
    }

    /** `right!(amount)`: moves this Address right and returns it. */
    method MoveRight(amount: int := 1) returns (r: Result<Address, Error>)
      modifies this
      ensures old(View()).Right(amount).Ok? ==> r == Ok(this) && View() == old(View()).Right(amount).value
      ensures old(View()).Right(amount).Err? ==> r == Err(InvalidArgument) && View() == old(View())
    {
      var o := SetColumn(Index(column + amount));
      r := if o.Pass? then Ok(this) else Err(o.error);
    }

    /** `cell`: the cell at this Address, looked up row first; nothing is created. */
    function Cell(): (c: Option<Grid.Cell>)
      reads this, worksheet
      ensures c.Some? <==> (row, column) in worksheet.Cells()
      ensures c.Some? ==> c.value == worksheet.Cells()[(row, column)]
    {
      match worksheet.RowAt(row)
      case None => None
      case Some(cells) => if column in cells then Some(cells[column]) else None
    }

    /** `value`: the value of the cell at this Address, nil when there is no cell. */
    function Value(): (v: Grid.Value)
      reads this, worksheet
      ensures (row, column) !in worksheet.Cells() ==> v == Grid.Nil
      ensures (row, column) in worksheet.Cells() ==> v == worksheet.Cells()[(row, column)].value
    {
      match Cell()
      case None => Grid.Nil
      case Some(c) => c.value
    }

    /** `value = v`: overwrites the contents of the cell at this Address, or
        adds a cell holding v there; no other cell changes. */
    method SetValue(v: Grid.Value)
      modifies worksheet
      ensures (row, column) in old(worksheet.Cells()) ==>
        worksheet.Cells() == old(worksheet.Cells())[(row, column) := old(worksheet.Cells())[(row, column)].(value := v)]
      ensures (row, column) !in old(worksheet.Cells()) ==>
        worksheet.Cells() == old(worksheet.Cells())[(row, column) := Grid.Cell(v)]
      ensures View() == old(View())
      ensures Value() == v
    {
      if Cell().Some? {
        worksheet.ChangeContents(row, column, v);
      } else {
        worksheet.AddCell(row, column, v);
      }
    }
  }

  /** Writing twice through one Address leaves a single cell there, holding
      the second value: the second write overwrites instead of adding. */
  method WriteTwice(a: Address, first: Grid.Value, second: Grid.Value)
    modifies a.worksheet
    ensures a.worksheet.Cells().Keys == old(a.worksheet.Cells()).Keys + {(a.row, a.column)}
    ensures a.Value() == second
  {
    a.SetValue(first);
    a.SetValue(second);
  }
}
