/**
 * `display_ingredients` as the list of lines it prints: one row per entry, three columns
 * framed by "|", the amount right-aligned, the measure centred and the name left-aligned,
 * every column as wide as its widest cell. How an amount is written (Python's `str` on a
 * float) is the parameter `show`.
 */
module Display {
  import opened Ingredients

  function Spaces(n: nat): (r: string)
    ensures |r| == n
    ensures forall i :: 0 <= i < n ==> r[i] == ' '
  {
    if n == 0 then "" else " " + Spaces(n - 1)
  }

  function Max(a: nat, b: nat): nat {
    if a >= b then a else b
  }

  /** The width of each column. */
  datatype Widths = Widths(amount: nat, measure: nat, name: nat)

  /** The cells of `x` fit the widths `w`. */
  predicate Fits(x: Ingredient, show: real -> string, w: Widths) {
    |show(x.amount)| <= w.amount && |x.measure| <= w.measure && |x.name| <= w.name
  }

  /** The widest cell of each column, 0 for an empty list. */
  function MaxWidths(list: seq<Ingredient>, show: real -> string): (w: Widths)
    ensures forall i :: 0 <= i < |list| ==> Fits(list[i], show, w)
    ensures w.amount == 0 || exists i :: 0 <= i < |list| && |show(list[i].amount)| == w.amount
    ensures w.measure == 0 || exists i :: 0 <= i < |list| && |list[i].measure| == w.measure
    ensures w.name == 0 || exists i :: 0 <= i < |list| && |list[i].name| == w.name
  {
    if list == [] then Widths(0, 0, 0)
    else
      var w := MaxWidths(list[..|list| - 1], show);
      var x := list[|list| - 1];
      assert forall i :: 0 <= i < |list| - 1 ==> list[..|list| - 1][i] == list[i];
      Widths(Max(|show(x.amount)|, w.amount), Max(|x.measure|, w.measure), Max(|x.name|, w.name))
  }

  lemma MaxWidthsStep(list: seq<Ingredient>, show: real -> string, k: nat)
    requires k < |list|
    ensures var w, x := MaxWidths(list[..k], show), list[k];
      MaxWidths(list[..k + 1], show) ==
        Widths(Max(|show(x.amount)|, w.amount), Max(|x.measure|, w.measure), Max(|x.name|, w.name))
  {
    assert list[..k + 1][..k] == list[..k];
  }

  /** Spaces before a measure `d` characters narrower than its column: half of `d`, rounded up. */
  function LeftPad(d: nat): nat {
    d / 2 + d % 2
  }

  /** Spaces after such a measure: half of `d + 1`, rounded up. */
  function RightPad(d: nat): nat {
    (d + 1) / 2 + (d + 1) % 2
  }

  /** The amount cell: right-aligned, one space wider than its column. */
  function AmountCell(text: string, width: nat): string
    requires |text| <= width
  {
    Spaces(width + 1 - |text|) + text
  }

  /** The measure cell: centred, one space wider than its column. */
  function MeasureCell(measure: string, width: nat): string
    requires |measure| <= width
  {
    var d := width - |measure|;
    Spaces(LeftPad(d)) + measure + Spaces(RightPad(d))
  }

  /** The name cell: left-aligned, one space wider than its column. */
  function NameCell(name: string, width: nat): string
    requires |name| <= width
  {
    name + Spaces(width - |name| + 1)
  }

  /** One printed row. */
  function Row(x: Ingredient, show: real -> string, w: Widths): string
    requires Fits(x, show, w)
  {
    "|" + AmountCell(show(x.amount), w.amount) + " | " + MeasureCell(x.measure, w.measure)
      + " | " + NameCell(x.name, w.name) + " |"
  }

  /** The rows of the entries of `list`, in order, all with the widths `w`. */
  function Rows(list: seq<Ingredient>, show: real -> string, w: Widths): (lines: seq<string>)
    requires forall i :: 0 <= i < |list| ==> Fits(list[i], show, w)
    ensures |lines| == |list|
  {
    if list == [] then []
    else
      var p := list[..|list| - 1];
      assert forall i :: 0 <= i < |p| ==> p[i] == list[i];
      Rows(p, show, w) + [Row(list[|list| - 1], show, w)]
  }

  /** Every row of a list, with the widths of that list. */
  function Table(list: seq<Ingredient>, show: real -> string): seq<string> {
    Rows(list, show, MaxWidths(list, show))
  }

  /** Row `i` of the table is the row of entry `i`; all rows have the same length. */
  lemma {:induction false} RowsEntries(list: seq<Ingredient>, show: real -> string, w: Widths)
    requires forall i :: 0 <= i < |list| ==> Fits(list[i], show, w)
    ensures forall i :: 0 <= i < |list| ==> Rows(list, show, w)[i] == Row(list[i], show, w)
    ensures forall i :: 0 <= i < |list| ==> |Rows(list, show, w)[i]| == w.amount + w.measure + w.name + 12
  {
    if list != [] {
      var p := list[..|list| - 1];
      assert forall i :: 0 <= i < |p| ==> p[i] == list[i];
      RowsEntries(p, show, w);
      RowLength(list[|list| - 1], show, w);
    }
  }

  /** The measure's padding adds up to one more than the slack, split evenly with any extra space on the right. */
  lemma Padding(d: nat)
    ensures LeftPad(d) + RightPad(d) == d + 1
    ensures LeftPad(d) <= RightPad(d) <= LeftPad(d) + 1
  {
  }

  /** The amount ends the cell, after spaces. */
  lemma AmountCellLayout(text: string, width: nat)
    requires |text| <= width
    ensures var c, k := AmountCell(text, width), width + 1 - |text|;
      && |c| == width + 1
      && (forall i :: 0 <= i < k ==> c[i] == ' ')
      && c[k..] == text
  {
  }

  /** The measure sits between `LeftPad` spaces and `RightPad` spaces. */
  lemma MeasureCellLayout(measure: string, width: nat)
    requires |measure| <= width
    ensures var c, k := MeasureCell(measure, width), LeftPad(width - |measure|);
      && |c| == width + 1
      && (forall i :: 0 <= i < k ==> c[i] == ' ')
      && c[k..k + |measure|] == measure
      && (forall i :: k + |measure| <= i < |c| ==> c[i] == ' ')
  {
    var d := width - |measure|;
    Padding(d);
    var c := MeasureCell(measure, width);
    var p := Spaces(LeftPad(d)) + measure;
    assert c == p + Spaces(RightPad(d));
    assert c[..|p|] == p;
  }

  /** The name starts the cell, followed by spaces. */
  lemma NameCellLayout(name: string, width: nat)
    requires |name| <= width
    ensures var c := NameCell(name, width);
      && |c| == width + 1
      && c[..|name|] == name
      && (forall i :: |name| <= i < |c| ==> c[i] == ' ')
  {
  }

  lemma RowLength(x: Ingredient, show: real -> string, w: Widths)
    requires Fits(x, show, w)
    ensures |Row(x, show, w)| == w.amount + w.measure + w.name + 12
  {
    AmountCellLayout(show(x.amount), w.amount);
    MeasureCellLayout(x.measure, w.measure);
    NameCellLayout(x.name, w.name);
  }

  /**
   * The layout of a row: frame bars at fixed positions and, between them, the three
   * cells, each one space wider than its column.
   */
  lemma RowLayout(x: Ingredient, show: real -> string, w: Widths)
    requires Fits(x, show, w)
    ensures var r := Row(x, show, w);
      && |r| == w.amount + w.measure + w.name + 12
      && r[0] == '|' && r[w.amount + 3] == '|' && r[w.amount + w.measure + 7] == '|' && r[|r| - 1] == '|'
      && r[1..w.amount + 2] == AmountCell(show(x.amount), w.amount)
      && r[w.amount + 5..w.amount + w.measure + 6] == MeasureCell(x.measure, w.measure)
      && r[w.amount + w.measure + 9..|r| - 2] == NameCell(x.name, w.name)
  {
    RowLength(x, show, w);
    var a, m, n := AmountCell(show(x.amount), w.amount), MeasureCell(x.measure, w.measure), NameCell(x.name, w.name);
    var p1 := "|" + a;
    var p2 := p1 + " | " + m;
    var p3 := p2 + " | " + n;
    var r := p3 + " |";
    assert r == Row(x, show, w);
    assert r[..|p1|] == p1;
    assert p1[1..] == a;
    assert r[..|p2|] == p2;
    assert p2[|p1| + 3..] == m;
    assert r[..|p3|] == p3;
    assert p3[|p2| + 3..] == n;
  }

  /** The first pass of `display_ingredients`: the widest cell of each column. */
  method ColumnWidths(list: seq<Ingredient>, show: real -> string) returns (w: Widths)
    ensures w == MaxWidths(list, show)
  {
    var maxAmount, maxMeasure, maxName := 0, 0, 0;
    for k := 0 to |list|
      invariant Widths(maxAmount, maxMeasure, maxName) == MaxWidths(list[..k], show)
    {
      var x := list[k];
      MaxWidthsStep(list, show, k);
      maxAmount := Max(|show(x.amount)|, maxAmount);
      maxMeasure := Max(|x.measure|, maxMeasure);
      maxName := Max(|x.name|, maxName);
    }
    assert list[..|list|] == list;
    w := Widths(maxAmount, maxMeasure, maxName);
  }

  /** The second pass of `display_ingredients`: one row per entry, in order. */
  method FormatRows(list: seq<Ingredient>, show: real -> string, w: Widths) returns (lines: seq<string>)
    requires forall i :: 0 <= i < |list| ==> Fits(list[i], show, w)
    ensures lines == Rows(list, show, w)
  {
    lines := [];
    for k := 0 to |list|
      invariant lines == Rows(list[..k], show, w)
    {
      assert list[..k + 1][..k] == list[..k];
      lines := lines + [Row(list[k], show, w)];
    }
    assert list[..|list|] == list;
  }

  /**
   * The lines `display_ingredients` prints: one per entry, line i the row of entry i at the
   * column maxima, all of the same length.
   */
  lemma TableRows(list: seq<Ingredient>, show: real -> string)
    ensures |Table(list, show)| == |list|
    ensures forall i :: 0 <= i < |list| ==> Table(list, show)[i] == Row(list[i], show, MaxWidths(list, show))
    ensures forall i :: 0 <= i < |list| ==>
      var w := MaxWidths(list, show);
      |Table(list, show)[i]| == w.amount + w.measure + w.name + 12
  {
    RowsEntries(list, show, MaxWidths(list, show));
  }

  /**
   * `display_ingredients`: a first pass finds the widest cell of each column, a second
   * builds one row per entry.
   */
  method DisplayIngredients(list: seq<Ingredient>, show: real -> string) returns (lines: seq<string>)
    ensures lines == Table(list, show)
  {
    var w := ColumnWidths(list, show);
    lines := FormatRows(list, show, w);
  }

  lemma ExampleWidths(show: real -> string)
    requires show(1.0) == "1.0" && show(0.5) == "0.5"
    ensures MaxWidths([Ingredient(1.0, "large", "banana"), Ingredient(0.5, "cup", "ice")], show) == Widths(3, 5, 6)
  {
    var list := [Ingredient(1.0, "large", "banana"), Ingredient(0.5, "cup", "ice")];
    assert list[..0] == [] && list[..2] == list;
    MaxWidthsStep(list, show, 0);
    MaxWidthsStep(list, show, 1);
  }

  lemma ExampleSpaces()
    ensures Spaces(1) == " " && Spaces(2) == "  " && Spaces(4) == "    "
  {
  }

  lemma ExampleAmountCells()
    ensures AmountCell("1.0", 3) == " 1.0" && AmountCell("0.5", 3) == " 0.5"
  {
    ExampleSpaces();
  }

  lemma ExampleLarge()
    ensures MeasureCell("large", 5) == "large "
  {
    assert LeftPad(0) == 0 && RightPad(0) == 1;
    assert Spaces(0) == "" && Spaces(1) == " ";
  }

  lemma ExampleCup()
    ensures MeasureCell("cup", 5) == " cup  "
  {
    assert LeftPad(2) == 1 && RightPad(2) == 2;
    assert Spaces(1) == " " && Spaces(2) == "  ";
  }

  lemma ExampleNameCells()
    ensures NameCell("banana", 6) == "banana " && NameCell("ice", 6) == "ice    "
  {
    ExampleSpaces();
  }

  lemma ExampleFirstRow(show: real -> string)
    requires show(1.0) == "1.0"
    ensures Row(Ingredient(1.0, "large", "banana"), show, Widths(3, 5, 6)) == "| 1.0 | large  | banana  |"
  {
    ExampleAmountCells();
    ExampleLarge();
    ExampleNameCells();
    var line := "|" + " 1.0" + " | " + "large " + " | " + "banana " + " |";
    assert Row(Ingredient(1.0, "large", "banana"), show, Widths(3, 5, 6)) == line;
    assert line == "| 1.0 | large  | banana  |";
  }

  lemma ExampleSecondRow(show: real -> string)
    requires show(0.5) == "0.5"
    ensures Row(Ingredient(0.5, "cup", "ice"), show, Widths(3, 5, 6)) == "| 0.5 |  cup   | ice     |"
  {
    ExampleAmountCells();
    ExampleCup();
    ExampleNameCells();
    var line := "|" + " 0.5" + " | " + " cup  " + " | " + "ice    " + " |";
    assert Row(Ingredient(0.5, "cup", "ice"), show, Widths(3, 5, 6)) == line;
    assert line == "| 0.5 |  cup   | ice     |";
  }

  lemma TwoFit(a: Ingredient, b: Ingredient, show: real -> string)
    ensures Fits(a, show, MaxWidths([a, b], show)) && Fits(b, show, MaxWidths([a, b], show))
  {
    assert [a, b][0] == a && [a, b][1] == b;
  }

  lemma RowsOfTwo(a: Ingredient, b: Ingredient, show: real -> string, w: Widths)
    requires Fits(a, show, w) && Fits(b, show, w)
    ensures Rows([a, b], show, w) == [Row(a, show, w), Row(b, show, w)]
  {
    assert [a, b][..1] == [a] && [a][..0] == [];
  }

  /** A two-entry table is the rows of both entries at their common widths. */
  lemma TableOfTwo(a: Ingredient, b: Ingredient, show: real -> string)
    ensures Fits(a, show, MaxWidths([a, b], show)) && Fits(b, show, MaxWidths([a, b], show))
    ensures var w := MaxWidths([a, b], show);
      Table([a, b], show) == [Row(a, show, w), Row(b, show, w)]
  {
    TwoFit(a, b, show);
    RowsOfTwo(a, b, show, MaxWidths([a, b], show));
  }

  /** The two-row example of `display_ingredients`, with amounts written as Python writes them. */
  lemma DisplayExample(show: real -> string)
    requires show(1.0) == "1.0" && show(0.5) == "0.5"
    ensures Table([Ingredient(1.0, "large", "banana"), Ingredient(0.5, "cup", "ice")], show)
      == ["| 1.0 | large  | banana  |", "| 0.5 |  cup   | ice     |"]
  {
    ExampleWidths(show);
    TableOfTwo(Ingredient(1.0, "large", "banana"), Ingredient(0.5, "cup", "ice"), show);
    ExampleFirstRow(show);
    ExampleSecondRow(show);
  }
}
