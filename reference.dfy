/**
 * The reference codec that `RubyXL::Address` calls into: `Reference.ind2ref`,
 * `Reference.ref2ind` and `Addressing.normalize`. Their Ruby source is not part
 * of this model; this module stands in for them, with the behaviour the tests
 * of the repository fix:
 *   - a row index i is written as the decimal numeral of i + 1, without sign or
 *     leading zero ("1" for 0, "1048576" for 1048575);
 *   - a column index i is written as the bijective base-26 numeral of i + 1 over
 *     the letters A..Z, A standing for 1 ("A" for 0, "Z" for 25, "AA" for 26,
 *     "XFD" for 16383);
 *   - the parsers accept exactly those numerals and reject everything else
 *     ("0", "01", "a", "1", "").
 */
module Reference {
  import opened Wrappers

  /** The two kinds of exception the Ruby code raises on bad input. */
  datatype Error = TypeMismatch | InvalidArgument

  /** What a caller may pass for a row or a column: an integer index, or a
      String/Symbol label such as '5' or :G. */
  datatype Coord = Index(i: int) | Label(ref: string)

  predicate IsUpper(c: char) { 'A' <= c <= 'Z' }

  predicate IsDigit(c: char) { '0' <= c <= '9' }

  predicate AllUpper(s: string) { forall k :: 0 <= k < |s| ==> IsUpper(s[k]) }

  predicate AllDigits(s: string) { forall k :: 0 <= k < |s| ==> IsDigit(s[k]) }

  /** A column label: one or more upper-case letters (`^[A-Z]+$`). */
  predicate IsColumnRef(s: string) { |s| > 0 && AllUpper(s) }

  /** A row label: a decimal numeral without leading zero (`^[1-9][0-9]*$`). */
  predicate IsRowRef(s: string) { |s| > 0 && AllDigits(s) && s[0] != '0' }

  // ---------------------------------------------------------------- rows

  function DigitChar(d: nat): (c: char)
    requires d < 10
    ensures IsDigit(c) && c as int - '0' as int == d
  {
    ('0' as int + d) as char
  }

  /** The decimal numeral of n, most significant digit first. */
  function Decimal(n: nat): (s: string)
    ensures |s| > 0 && AllDigits(s)
    ensures n > 0 ==> s[0] != '0'
  {
    if n < 10 then [DigitChar(n)] else Decimal(n / 10) + [DigitChar(n % 10)]
  }

  /** The number a string of decimal digits denotes, read left to right. */
  function DecimalValue(s: string): (v: nat)
    requires AllDigits(s)
    ensures |s| > 0 && s[0] != '0' ==> v > 0
  {
    if s == [] then 0
    else DecimalValue(s[..|s| - 1]) * 10 + (s[|s| - 1] as int - '0' as int)
  }

  /** `ind2ref` for a row: index 0 is row "1". */
  function RowIndexToRef(i: nat): (s: string)
    ensures IsRowRef(s)
  {
    Decimal(i + 1)
  }

  /** `ref2ind` for a row label: "1" is index 0; anything that is not a row
      label is an argument error. */
  function RowRefToIndex(s: string): (r: Result<nat, Error>)
    ensures r.Ok? ==> IsRowRef(s) && RowIndexToRef(r.value) == s
    ensures r.Err? ==> !IsRowRef(s) && r.error == InvalidArgument
  {
    if IsRowRef(s) then
      RowCanonical(s);
      Ok(DecimalValue(s) - 1)
    else
      Err(InvalidArgument)
  }

  lemma {:induction false} DecimalRoundTrip(n: nat)
    ensures DecimalValue(Decimal(n)) == n
  {
    if n >= 10 {
      var p := Decimal(n / 10);
      var s := p + [DigitChar(n % 10)];
      assert s[..|s| - 1] == p;
      DecimalRoundTrip(n / 10);
    }
  }

  /** Reading a row label and writing the index back gives the same label:
      there is exactly one label per row. */
  lemma {:induction false} RowCanonical(s: string)
    requires IsRowRef(s)
    ensures DecimalValue(s) > 0 && Decimal(DecimalValue(s)) == s
  {
    if |s| > 1 {
      var p := s[..|s| - 1];
      var d := s[|s| - 1] as int - '0' as int;
      assert IsRowRef(p);
      RowCanonical(p);
      var v := DecimalValue(s);
      assert v == DecimalValue(p) * 10 + d;
      assert v / 10 == DecimalValue(p) && v % 10 == d;
      assert Decimal(v) == p + [DigitChar(d)];
      assert s == p + [s[|s| - 1]];
    }
  }

  /** Every row index survives the trip through its label. */
  lemma RowRoundTrip(i: nat)
    ensures RowRefToIndex(RowIndexToRef(i)) == Ok(i)
  {
    DecimalRoundTrip(i + 1);
  }

  // ------------------------------------------------------------- columns

  function LetterChar(d: nat): (c: char)
    requires d < 26
    ensures IsUpper(c) && c as int - 'A' as int == d
  {
    ('A' as int + d) as char
  }

  /** `ind2ref` for a column: the bijective base-26 numeral of i + 1. The last
      letter is picked by i mod 26 and the rest encodes i / 26 - 1, because
      there is no zero digit. */
  function ColumnIndexToRef(i: nat): (s: string)
    ensures IsColumnRef(s)
  {
    if i < 26 then [LetterChar(i)]
    else ColumnIndexToRef(i / 26 - 1) + [LetterChar(i % 26)]
  }

  /** The number a string of letters denotes in bijective base 26 (A = 1). */
  function LettersValue(s: string): (v: nat)
    requires AllUpper(s)
    ensures |s| > 0 ==> v > 0
  {
    if s == [] then 0
    else LettersValue(s[..|s| - 1]) * 26 + (s[|s| - 1] as int - 'A' as int + 1)
  }

  /** `ref2ind` for a column label: "A" is index 0; anything that is not a
      column label is an argument error. */
  function ColumnRefToIndex(s: string): (r: Result<nat, Error>)
    ensures r.Ok? ==> IsColumnRef(s) && ColumnIndexToRef(r.value) == s
    ensures r.Err? ==> !IsColumnRef(s) && r.error == InvalidArgument
  {
    if IsColumnRef(s) then
      ColumnCanonical(s);
      Ok(LettersValue(s) - 1)
    else
      Err(InvalidArgument)
  }

  lemma {:induction false} LettersRoundTrip(i: nat)
    ensures LettersValue(ColumnIndexToRef(i)) == i + 1
  {
    if i >= 26 {
      var q := i / 26 - 1;
      var p := ColumnIndexToRef(q);
      var s := p + [LetterChar(i % 26)];
      assert s[..|s| - 1] == p;
      LettersRoundTrip(q);
      assert LettersValue(s) == (q + 1) * 26 + i % 26 + 1;
    }
  }

  /** Reading a column label and writing the index back gives the same label. */
  lemma {:induction false} ColumnCanonical(s: string)
    requires IsColumnRef(s)
    ensures LettersValue(s) > 0 && ColumnIndexToRef(LettersValue(s) - 1) == s
  {
    if |s| > 1 {
      var p := s[..|s| - 1];
      var d := s[|s| - 1] as int - 'A' as int;
      assert IsColumnRef(p);
      ColumnCanonical(p);
      var i := LettersValue(s) - 1;
      assert i == LettersValue(p) * 26 + d;
      assert i / 26 == LettersValue(p) && i % 26 == d;
      assert ColumnIndexToRef(i) == p + [LetterChar(d)];
      assert s == p + [s[|s| - 1]];
    }
  }

  /** Every column index survives the trip through its label. */
  lemma ColumnRoundTrip(i: nat)
    ensures ColumnRefToIndex(ColumnIndexToRef(i)) == Ok(i)
  {
    LettersRoundTrip(i);
  }

  // ------------------------------------------------- combined references

  /** `Reference.ind2ref(row, column)`: the column letters, then the row numeral.
      Every (row, column) pair survives the trip through its reference. */
  function CellRef(row: nat, column: nat): (s: string)
    ensures ParseCellRef(s) == Ok((row, column))
  {
    var l, d := ColumnIndexToRef(column), RowIndexToRef(row);
    LetterCountStops(l, d);
    assert (l + d)[..|l|] == l && (l + d)[|l|..] == d;
    ColumnRoundTrip(column);
    RowRoundTrip(row);
    l + d
  }

  /** The length of the longest prefix of s made of upper-case letters. */
  function LetterCount(s: string): (k: nat)
    ensures k <= |s| && AllUpper(s[..k])
    ensures k < |s| ==> !IsUpper(s[k])
  {
    if s == [] || !IsUpper(s[0]) then 0
    else
      var k := 1 + LetterCount(s[1..]);
      assert s[..k] == [s[0]] + s[1..][..k - 1];
      k
  }

  /** `Reference.ref2ind`: splits a reference such as "AB12" into its column
      letters and its row digits and reads both; the result is (row, column). */
  function ParseCellRef(s: string): (r: Result<(nat, nat), Error>)
    ensures r.Err? ==> r.error == InvalidArgument
  {
    var k := LetterCount(s);
    match ColumnRefToIndex(s[..k])
    case Err(e) => Err(e)
    case Ok(column) =>
      match RowRefToIndex(s[k..])
      case Err(e) => Err(e)
      case Ok(row) => Ok((row, column))
  }

  lemma {:induction false} LetterCountStops(l: string, d: string)
    requires AllUpper(l)
    requires |d| > 0 && !IsUpper(d[0])
    ensures LetterCount(l + d) == |l|
  {
    if l != [] {
      assert (l + d)[1..] == l[1..] + d;
      LetterCountStops(l[1..], d);
    }
  }

  /** A reference that parses is the one its coordinates render to. */
  lemma CellRefCanonical(s: string)
    requires ParseCellRef(s).Ok?
    ensures CellRef(ParseCellRef(s).value.0, ParseCellRef(s).value.1) == s
  {
    var k := LetterCount(s);
    assert s == s[..k] + s[k..];
  }

  // ------------------------------------------------------- normalisation

  /** `Addressing.normalize(:row, x)`: an integer is kept when it is not
      negative, a label is read as a row label; anything else is an argument
      error. */
  function NormalizeRow(x: Coord): (r: Result<nat, Error>)
    ensures x.Index? ==> (r.Ok? <==> x.i >= 0) && (r.Ok? ==> r.value == x.i)
    ensures x.Label? ==> (r.Ok? <==> IsRowRef(x.ref)) && (r.Ok? ==> RowIndexToRef(r.value) == x.ref)
    ensures r.Err? ==> r.error == InvalidArgument
  {
    match x
    case Index(i) => if i >= 0 then Ok(i) else Err(InvalidArgument)
    case Label(s) => RowRefToIndex(s)
  }

  /** `Addressing.normalize(:column, x)`, the same for columns. */
  function NormalizeColumn(x: Coord): (r: Result<nat, Error>)
    ensures x.Index? ==> (r.Ok? <==> x.i >= 0) && (r.Ok? ==> r.value == x.i)
    ensures x.Label? ==> (r.Ok? <==> IsColumnRef(x.ref)) && (r.Ok? ==> ColumnIndexToRef(r.value) == x.ref)
    ensures r.Err? ==> r.error == InvalidArgument
  {
    match x
    case Index(i) => if i >= 0 then Ok(i) else Err(InvalidArgument)
    case Label(s) => ColumnRefToIndex(s)
  }

  // --------------------------------------------- fixtures of the test suite

  /** The row index/label pairs the repository's tests assert. */
  lemma RowFixtures()
    ensures RowIndexToRef(0) == "1" && RowIndexToRef(1) == "2"
    ensures RowIndexToRef(1048574) == "1048575" && RowIndexToRef(1048575) == "1048576"
    ensures RowIndexToRef(1048576) == "1048577"
  {
    // the three large labels share their first six digits
    assert Decimal(104857) == "104857";
  }

  /** The column index/label pairs the repository's tests assert, with the
      first indices that need two and three letters. */
  lemma ColumnFixtures()
    ensures ColumnIndexToRef(0) == "A" && ColumnIndexToRef(1) == "B"
    ensures ColumnIndexToRef(25) == "Z" && ColumnIndexToRef(26) == "AA"
    ensures ColumnIndexToRef(701) == "ZZ" && ColumnIndexToRef(702) == "AAA"
    ensures ColumnIndexToRef(16382) == "XFC"
    ensures ColumnIndexToRef(16383) == "XFD" && ColumnIndexToRef(16384) == "XFE"
  {
  }

  /** The labels the tests reject, and the labels they pass to the setters. */
  lemma LabelFixtures()
    ensures RowRefToIndex("0").Err? && RowRefToIndex("01").Err?
    ensures ColumnRefToIndex("1").Err? && ColumnRefToIndex("a").Err?
    ensures NormalizeRow(Label("5")) == Ok(4) && NormalizeRow(Label("7")) == Ok(6)
    ensures NormalizeColumn(Label("E")) == Ok(4) && NormalizeColumn(Label("G")) == Ok(6)
  {
    assert !IsRowRef("0") && !IsRowRef("01");
    assert !IsUpper("1"[0]) && !IsUpper("a"[0]);
  }
}
