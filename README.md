# rubyXL-addressing: `RubyXL::Address` in Dafny

This project models `RubyXL::Address` from the rubyXL-addressing gem. An
Address is a spreadsheet cell coordinate with three fields:

- `worksheet`, the sheet it is bound to;
- `row`, a zero-based row index;
- `column`, a zero-based column index.

An Address is built from explicit indices or from an A1-style reference. It
has copying accessors (`row(x)`, `column(x)`, `worksheet(w)`), normalising
setters (`row=`, `column=`), relative moves (`up`/`down`/`left`/`right`),
in-place moves (`up!` … `right!`), rendering (`ref`) and access to the
worksheet's cell (`cell`, `value`, `value=`).

Files:

- `wrappers.dfy` (module `Wrappers`): `Option`, `Result` and `Outcome`. They
  stand for the Ruby code's nil and its exceptions.
- `reference.dfy` (module `Reference`): the reference codec. Row labels are
  the decimal of index + 1. Column labels are the bijective base-26 numeral of
  index + 1 over A–Z. The module also holds the normalisation that the setters
  apply. The Ruby source of `Reference.ind2ref`, `Reference.ref2ind` and
  `Addressing.normalize` is not part of this model. This module stands in for
  them, with the behaviour that the repository's tests assert.
- `grid.dfy` (module `Grid`): the worksheet. It is a map from row index to a
  map from column index to cell, so a lookup takes two steps as in
  `@worksheet[@row]` then `row[@column]`. `Cells()` is its flat view keyed by
  (row, column). The real `RubyXL::Worksheet` and `RubyXL::Cell` are not part
  of this model.
- `address.dfy` (module `RubyXL`): the datatype `AddressValue` and the class
  `Address`. `AddressValue` is the value an Address holds, and its functions
  give the meaning of every operation that returns a new Address. The class
  `Address` has the fields `worksheet`, `row : nat` and `column : nat`. Its
  copying methods allocate a fresh Address, and its contracts tie them to the
  `AddressValue` functions. Its setters and in-place moves carry
  `modifies this`. `SetValue` carries `modifies worksheet`.

Ruby's dual-mode accessors are split in two. The getter is the field itself.
The form with an argument is a `With…` method. An exception is an `Err` or
`Fail` result. A raising setter leaves the field unwritten, and the
postconditions of `SetRow`, `SetColumn` and `MoveUp` … `MoveRight` state
this. A row or column argument is `Coord`: either `Index(i)` for an Integer,
or `Label(s)` for a String or Symbol such as `'5'` or `:G`.

The indices are `nat`, so every Address has row ≥ 0 and column ≥ 0. What the
source guarantees at run time, the setters' rejection of negative values, is
proved in the contracts of `NormalizeRow`, `NormalizeColumn` and the moves.

## Model

| member | source | states |
|---|---|---|
| Reference.RowIndexToRef | test/rubyXL/address_class_methods_test.rb:7-13 | the label of a row index is always a valid row label (digits, no leading zero) |
| Reference.Decimal | test/rubyXL/address_class_methods_test.rb:25-29 | the decimal numeral is non-empty, all digits, and starts with a non-zero digit for a positive number |
| Reference.DecimalValue | test/rubyXL/address_class_methods_test.rb:37-42 | a digit string without leading zero denotes a positive number |
| Reference.RowRefToIndex | test/rubyXL/address_class_methods_test.rb:75-78 | a label is accepted iff it is a row label, and then rendering the index gives back the label; otherwise an argument error |
| Reference.DecimalRoundTrip | test/rubyXL/address_class_methods_test.rb:37-42 | reading the decimal numeral of n gives n |
| Reference.RowCanonical | test/rubyXL/address_class_methods_test.rb:37-42 | every row label denotes a positive number whose numeral is that label, so each row has exactly one label |
| Reference.RowRoundTrip | test/rubyXL/address_class_methods_test.rb:37-42 | for every row index i, parsing the label of i gives i |
| Reference.ColumnIndexToRef | test/rubyXL/address_class_methods_test.rb:15-23 | the label of a column index is always non-empty upper-case letters |
| Reference.LettersValue | test/rubyXL/address_class_methods_test.rb:44-49 | a non-empty letter string denotes a positive number in bijective base 26 |
| Reference.ColumnRefToIndex | test/rubyXL/address_class_methods_test.rb:84-87 | a label is accepted iff it is a column label, and then rendering the index gives back the label; otherwise an argument error |
| Reference.LettersRoundTrip | test/rubyXL/address_class_methods_test.rb:44-49 | the letters of column index i denote i + 1 in bijective base 26 |
| Reference.ColumnCanonical | test/rubyXL/address_class_methods_test.rb:44-49 | every column label denotes a positive number n, and the label of index n − 1 is that label |
| Reference.ColumnRoundTrip | test/rubyXL/address_class_methods_test.rb:44-49 | for every column index i, parsing the label of i gives i |
| Reference.LetterCount | lib/rubyXL/address.rb:16 | the split point of a reference is the end of its longest all-upper-case prefix |
| Reference.LetterCountStops | lib/rubyXL/address.rb:16 | letters followed by a non-letter split exactly after the letters |
| Reference.ParseCellRef | lib/rubyXL/address.rb:16 | a reference that does not split into a column label and a row label is an argument error |
| Reference.CellRef | lib/rubyXL/address.rb:65 | the reference of (row, column) parses back to exactly (row, column); with CellRefCanonical, ParseCellRef is its exact inverse |
| Reference.CellRefCanonical | lib/rubyXL/address.rb:16 | a reference that parses is exactly the reference its coordinates render to |
| Reference.NormalizeRow | lib/rubyXL/address.rb:54 | an integer is accepted iff it is ≥ 0 and is kept unchanged; a label is accepted iff it is a row label and its index renders back to it; every failure is an argument error |
| Reference.NormalizeColumn | lib/rubyXL/address.rb:60 | the same for columns, with column labels |
| Reference.RowFixtures | test/rubyXL/address_class_methods_test.rb:7-13 | 0→"1", 1→"2", 1048574→"1048575", 1048575→"1048576", 1048576→"1048577" |
| Reference.ColumnFixtures | test/rubyXL/address_class_methods_test.rb:15-23 | 0→"A", 1→"B", 25→"Z", 26→"AA", 16382→"XFC", 16383→"XFD", 16384→"XFE", and 701→"ZZ", 702→"AAA" |
| Reference.LabelFixtures | test/rubyXL/address_test.rb:147-171 | "0" and "01" are not row labels, "1" and "a" are not column labels (address_class_methods_test.rb:75-87); the setters read '5'→4, '7'→6, 'E'→4, 'G'→6 |
| Grid.Worksheet.Cells | lib/rubyXL/address.rb:127 | (r, c) is a key of the flat view iff row r exists and has a cell at c, and it maps to that cell |
| Grid.Worksheet.RowAt | lib/rubyXL/address.rb:127 | `worksheet[row]` is present iff the row exists; it has a cell at c iff the flat view has (row, c), and that cell is the flat view's |
| Grid.Worksheet.AddCell | lib/rubyXL/address.rb:141 | adds a cell holding the value at (row, column), and no other cell changes |
| Grid.Worksheet.ChangeContents | lib/rubyXL/address.rb:139 | only the value of the existing cell at (row, column) changes |
| RubyXL.AddressValue.Build | lib/rubyXL/address.rb:13-19 | with a reference: succeeds iff it parses, keeps the worksheet, and the result renders back to that reference; without one: succeeds iff both coordinates are given and normalise, and the result holds them; the error is a type error exactly when the coordinate the setters reach first is missing, and an argument error otherwise (bad reference, negative or malformed coordinate) |
| RubyXL.AddressValue.WithWorksheet | lib/rubyXL/address.rb:23-29 | the same row and column on the new worksheet |
| RubyXL.AddressValue.WithRow | lib/rubyXL/address.rb:33-39 | succeeds iff the row normalises; only the row is replaced, by the normalised value; otherwise an argument error |
| RubyXL.AddressValue.WithColumn | lib/rubyXL/address.rb:43-49 | succeeds iff the column normalises; only the column is replaced; otherwise an argument error |
| RubyXL.AddressValue.Up | lib/rubyXL/address.rb:75-77 | succeeds iff row − amount ≥ 0; the row becomes row − amount, column and worksheet unchanged; otherwise an argument error |
| RubyXL.AddressValue.Down | lib/rubyXL/address.rb:81-83 | succeeds iff row + amount ≥ 0; the row becomes row + amount, column and worksheet unchanged |
| RubyXL.AddressValue.Left | lib/rubyXL/address.rb:87-89 | succeeds iff column − amount ≥ 0; the column becomes column − amount, row and worksheet unchanged; otherwise an argument error |
| RubyXL.AddressValue.Right | lib/rubyXL/address.rb:93-95 | succeeds iff column + amount ≥ 0; the column becomes column + amount, row and worksheet unchanged |
| RubyXL.UpThenDown | test/rubyXL/address_test.rb:183-191 | going down by n after a successful move up by n returns the original address; up by 0 is the identity |
| RubyXL.LeftThenRight | test/rubyXL/address_test.rb:208-216 | going right by n after a successful move left by n returns the original address; left by 0 is the identity |
| RubyXL.NegativeAmountReverses | test/rubyXL/address_test.rb:189 | up by −n is down by n, and left by −n is right by n |
| RubyXL.AddressValue.Assign | lib/rubyXL/address.rb:17-18 | succeeds iff row and column are both given and both normalise, and then holds the normalised pair; a missing row, or a missing column after a valid row, is a type error; otherwise the failure is an argument error from the coordinate that did not normalise |
| RubyXL.BuildFromRef | test/rubyXL/address_test.rb:173-175 | building an Address from the reference of an Address gives that Address back |
| RubyXL.Address.Init | lib/rubyXL/address.rb:14 | the fields hold the given worksheet, row and column |
| RubyXL.Address.New | lib/rubyXL/address.rb:13-19 | succeeds exactly when `AddressValue.Build` does, with a fresh Address holding its value |
| RubyXL.Address.SetWorksheet | lib/rubyXL/address.rb:7 | only the worksheet changes |
| RubyXL.Address.SetRow | lib/rubyXL/address.rb:53-55 | on success the row is the normalised value and nothing else changes; on failure the error is the normaliser's and nothing changes |
| RubyXL.Address.SetColumn | lib/rubyXL/address.rb:59-61 | on success the column is the normalised value and nothing else changes; on failure nothing changes |
| RubyXL.Address.WithWorksheet | lib/rubyXL/address.rb:23-29 | returns a fresh Address holding `View().WithWorksheet(w)`; the receiver is not modified |
| RubyXL.Address.WithRow | lib/rubyXL/address.rb:33-39 | returns a fresh Address holding `View().WithRow(x)`, or its error; the receiver is not modified |
| RubyXL.Address.WithColumn | lib/rubyXL/address.rb:43-49 | returns a fresh Address holding `View().WithColumn(x)`, or its error; the receiver is not modified |
| RubyXL.Address.Ref | lib/rubyXL/address.rb:64-66 | the column letters followed by the row numeral, and parsing it gives back (row, column) |
| RubyXL.Address.Up | lib/rubyXL/address.rb:75-77 | returns a fresh Address holding `View().Up(amount)`, or its error |
| RubyXL.Address.Down | lib/rubyXL/address.rb:81-83 | returns a fresh Address holding `View().Down(amount)`, or its error |
| RubyXL.Address.Left | lib/rubyXL/address.rb:87-89 | returns a fresh Address holding `View().Left(amount)`, or its error |
| RubyXL.Address.Right | lib/rubyXL/address.rb:93-95 | returns a fresh Address holding `View().Right(amount)`, or its error |
| RubyXL.Address.MoveUp | lib/rubyXL/address.rb:99-102 | when up(amount) succeeds the receiver takes its value and is returned; otherwise an argument error and the receiver is unchanged |
| RubyXL.Address.MoveDown | lib/rubyXL/address.rb:106-109 | the same with down(amount) |
| RubyXL.Address.MoveLeft | lib/rubyXL/address.rb:113-116 | the same with left(amount) |
| RubyXL.Address.MoveRight | lib/rubyXL/address.rb:120-123 | the same with right(amount) |
| RubyXL.Address.Cell | lib/rubyXL/address.rb:126-128 | present iff the worksheet has a cell at (row, column), and then that cell |
| RubyXL.Address.Value | lib/rubyXL/address.rb:131-133 | nil when there is no cell at (row, column), otherwise that cell's value |
| RubyXL.Address.SetValue | lib/rubyXL/address.rb:137-143 | an existing cell gets the new value; otherwise a cell holding it is added; no other cell and no field of the Address changes; afterwards `Value()` is the written value |
| RubyXL.WriteTwice | test/rubyXL/address_test.rb:376-387 | two writes through one Address add at most one cell, and the second value is the one read back |

## Left out

- `inspect` (lib/rubyXL/address.rb:69-71): string formatting over the worksheet's `sheet_name`, which the worksheet model does not have.
- `addr` in lib/rubyXL/addressing.rb only forwards to `Address.new`, and the file's last lines mix the module into `RubyXL::Worksheet`. Both are glue.
- `exists?` and the class methods `row_ind2ref`, `column_ind2ref`, `row_ref2ind` and `column_ref2ind` are exercised by the tests but not defined in lib/rubyXL/address.rb. The codec functions of `Reference` cover their index/label fixtures and their rejection of malformed labels. An index is a `nat`, so a negative index cannot be passed to `RowIndexToRef` or `ColumnIndexToRef`, and the ArgumentError that `ind2ref` raises for −1 is not modelled.
- The Ruby source of `Reference.ind2ref`, `Reference.ref2ind` and `Addressing.normalize` is not part of this model. `Reference` is written from the behaviour the tests assert. The combined reference is read as the longest upper-case prefix followed by a row label, so "A0" and "A01" are refused.
- The split between `TypeError` and `ArgumentError` for Ruby values of the wrong class (`0.0`, `0r`, `'0'` given as an index) does not arise: a `Coord` is an integer or a label. `TypeMismatch` is used for one case only, a missing row or column (nil) when no reference is given.
- Cells are values (`Grid.Cell(value)`), not objects. Cell identity (`assert_same`) and the cell attributes other than its value are not modelled. The worksheet is always a `Grid.Worksheet`, although the tests also bind Addresses to plain strings.
- Ruby evaluates `cell` twice in `value=` and in `value`; the model evaluates it once, which is the same for a worksheet that does not change in between.
