/** The per-column totals of a list of game rows, shared by the receipt
    form and the shortcut tab. The two differ only in how an o, jod or ko
    cell is read as a number: the receipt form evaluates it as an
    arithmetic expression, the shortcut tab reads it with `parseFloat`. */
module RowTotals {
  import opened Js
  import opened Records

  /** The six column totals. */
  datatype Columns = Columns(o: real, jod: real, ko: real, pan: real, gun: real, special: real)

  const NoColumns := Columns(0.0, 0.0, 0.0, 0.0, 0.0, 0.0)

  function AddColumns(a: Columns, b: Columns): Columns {
    Columns(a.o + b.o, a.jod + b.jod, a.ko + b.ko, a.pan + b.pan, a.gun + b.gun, a.special + b.special)
  }

  /** `payment`: the sum of the six totals. */
  function ColumnsSum(c: Columns): real {
    c.o + c.jod + c.ko + c.pan + c.gun + c.special
  }

  /** What one row adds to the columns, given the values of its o, jod and
      ko cells: with multiplier m these are scaled by m, 10·m and m, without
      one they are added as they are; pan, gun and special add val1·val2. */
  function Contribution(oVal: real, jodVal: real, koVal: real, r: Row): Columns {
    match r.multiplier
    case Some(m) =>
      Columns(oVal * m, jodVal * m * 10.0, koVal * m, SlotProduct(r.pan), SlotProduct(r.gun), SlotProduct(r.special))
    case None =>
      Columns(oVal, jodVal, koVal, SlotProduct(r.pan), SlotProduct(r.gun), SlotProduct(r.special))
  }

  /** One row's contribution when its cells are read with `read`. */
  function RowColumns(r: Row, read: JsVal -> real): Columns {
    Contribution(read(r.o), read(r.jod), read(r.ko), r)
  }

  /** The column totals of a row list, row by row. */
  function ColumnTotals(rows: seq<Row>, read: JsVal -> real): Columns {
    if rows == [] then NoColumns
    else AddColumns(ColumnTotals(rows[..|rows| - 1], read), RowColumns(rows[|rows| - 1], read))
  }

  /** `Σ (Number(row.income) || 0)` */
  function TotalIncome(rows: seq<Row>): real {
    if rows == [] then 0.0 else TotalIncome(rows[..|rows| - 1]) + NumberOr0(rows[|rows| - 1].income)
  }

  lemma ColumnTotalsStep(rows: seq<Row>, i: nat, read: JsVal -> real)
    requires i < |rows|
    ensures ColumnTotals(rows[..i + 1], read) == AddColumns(ColumnTotals(rows[..i], read), RowColumns(rows[i], read))
  {
    assert rows[..i + 1][..i] == rows[..i];
  }

  /** The `gameRows.forEach` callback: adds one row to the running totals. */
  method AccumulateRow(acc: Columns, row: Row, read: JsVal -> real) returns (next: Columns)
    ensures next == AddColumns(acc, RowColumns(row, read))
  {
    var oT, jodT, koT := acc.o, acc.jod, acc.ko;
    var oVal := read(row.o);
    var jodVal := read(row.jod);
    var koVal := read(row.ko);
    if row.multiplier.Some? {
      var m := row.multiplier.value;
      assert RowColumns(row, read) == Columns(oVal * m, jodVal * m * 10.0, koVal * m,
                                             SlotProduct(row.pan), SlotProduct(row.gun), SlotProduct(row.special));
      oT := oT + oVal * m;
      jodT := jodT + jodVal * m * 10.0;
      koT := koT + koVal * m;
    } else {
      oT := oT + oVal;
      jodT := jodT + jodVal;
      koT := koT + koVal;
    }
    var panT := acc.pan + SlotProduct(row.pan);
    var gunT := acc.gun + SlotProduct(row.gun);
    var specialT := acc.special + SlotProduct(row.special);
    next := Columns(oT, jodT, koT, panT, gunT, specialT);
  }

  /** The `gameRows.forEach` loop: the six column totals, accumulated row
      by row with the cells read by `read`. */
  method SumColumns(rows: seq<Row>, read: JsVal -> real) returns (cols: Columns)
    ensures cols == ColumnTotals(rows, read)
  {
    cols := NoColumns;
    var i := 0;
    while i < |rows|
      invariant 0 <= i <= |rows|
      invariant cols == ColumnTotals(rows[..i], read)
    {
      cols := AccumulateRow(cols, rows[i], read);
      ColumnTotalsStep(rows, i, read);
      i := i + 1;
    }
    assert rows[..|rows|] == rows;
  }

  /** The `gameRows.reduce` over `Number(row.income) || 0`. */
  method SumIncome(rows: seq<Row>) returns (total: real)
    ensures total == TotalIncome(rows)
  {
    total := 0.0;
    var i := 0;
    while i < |rows|
      invariant 0 <= i <= |rows|
      invariant total == TotalIncome(rows[..i])
    {
      total := total + NumberOr0(rows[i].income);
      assert rows[..i + 1][..i] == rows[..i];
      i := i + 1;
    }
    assert rows[..|rows|] == rows;
  }

  // ---------------------------------------------------------------------------
  // Lemmas

  /** The totals of two row lists, one after the other, are the sums of
      their totals. */
  lemma {:induction false} ColumnTotalsAppend(a: seq<Row>, b: seq<Row>, read: JsVal -> real)
    ensures ColumnTotals(a + b, read) == AddColumns(ColumnTotals(a, read), ColumnTotals(b, read))
    decreases |b|
  {
    if b == [] {
      assert a + b == a;
    } else {
      var b' := b[..|b| - 1];
      assert (a + b)[..|a + b| - 1] == a + b';
      assert (a + b)[|a + b| - 1] == b[|b| - 1];
      ColumnTotalsAppend(a, b', read);
    }
  }

  lemma {:induction false} TotalIncomeAppend(a: seq<Row>, b: seq<Row>)
    ensures TotalIncome(a + b) == TotalIncome(a) + TotalIncome(b)
    decreases |b|
  {
    if b == [] {
      assert a + b == a;
    } else {
      var b' := b[..|b| - 1];
      assert (a + b)[..|a + b| - 1] == a + b';
      assert (a + b)[|a + b| - 1] == b[|b| - 1];
      TotalIncomeAppend(a, b');
    }
  }

  /** A single row's totals: o and ko are scaled by its multiplier and jod
      by ten times it, or all three are taken as they are when it has none. */
  lemma SingleRowScaling(r: Row, read: JsVal -> real)
    ensures var c := ColumnTotals([r], read);
      (r.multiplier.Some? ==>
        c.o == read(r.o) * r.multiplier.value
        && c.jod == read(r.jod) * r.multiplier.value * 10.0
        && c.ko == read(r.ko) * r.multiplier.value)
      && (r.multiplier.None? ==> c.o == read(r.o) && c.jod == read(r.jod) && c.ko == read(r.ko))
      && c.pan == NumberOr0(SlotVal1(r.pan)) * NumberOr0(SlotVal2(r.pan))
      && c.gun == NumberOr0(SlotVal1(r.gun)) * NumberOr0(SlotVal2(r.gun))
      && c.special == NumberOr0(SlotVal1(r.special)) * NumberOr0(SlotVal2(r.special))
  {
    ColumnTotalsSingle(r, read);
    SlotProductIs(r.pan);
    SlotProductIs(r.gun);
    SlotProductIs(r.special);
    var sums := (SlotProduct(r.pan), SlotProduct(r.gun), SlotProduct(r.special));
    match r.multiplier
    case Some(m) =>
      assert ColumnTotals([r], read) == Columns(read(r.o) * m, read(r.jod) * m * 10.0, read(r.ko) * m, sums.0, sums.1, sums.2);
    case None =>
      assert ColumnTotals([r], read) == Columns(read(r.o), read(r.jod), read(r.ko), sums.0, sums.1, sums.2);
  }

  lemma SlotProductIs(s: Slot)
    ensures SlotProduct(s) == NumberOr0(SlotVal1(s)) * NumberOr0(SlotVal2(s))
  {
  }

  lemma ColumnTotalsSingle(r: Row, read: JsVal -> real)
    ensures ColumnTotals([r], read) == RowColumns(r, read)
  {
    assert [r][..0] == [];
  }

  lemma TotalIncomeSingle(r: Row)
    ensures TotalIncome([r]) == NumberOr0(r.income)
  {
    assert [r][..0] == [];
  }

  lemma PairOf(rows: seq<Row>)
    requires |rows| == 2
    ensures rows == [rows[0], rows[1]]
  {
  }

  lemma TwoRowTotals(a: Row, b: Row, read: JsVal -> real)
    ensures ColumnTotals([a, b], read) == AddColumns(ColumnTotals([a], read), ColumnTotals([b], read))
    ensures TotalIncome([a, b]) == TotalIncome([a]) + TotalIncome([b])
  {
    assert [a, b] == [a] + [b];
    ColumnTotalsAppend([a], [b], read);
    TotalIncomeAppend([a], [b]);
  }

  /** A list is the part before a position, the element there, and the
      part after it. */
  lemma SplitAround(rows: seq<Row>, index: nat)
    requires index < |rows|
    ensures rows == rows[..index] + [rows[index]] + rows[index + 1..]
  {
  }

  /** Removing one row takes exactly that row's contribution off the totals. */
  lemma RemovingRowSubtracts(rows: seq<Row>, index: nat, read: JsVal -> real)
    requires index < |rows|
    ensures AddColumns(ColumnTotals(rows[..index] + rows[index + 1..], read), RowColumns(rows[index], read))
            == ColumnTotals(rows, read)
  {
    SplitAround(rows, index);
    ColumnTotalsRemove(rows[..index], rows[index], rows[index + 1..], read);
  }

  lemma ColumnTotalsRemove(a: seq<Row>, x: Row, b: seq<Row>, read: JsVal -> real)
    ensures ColumnTotals(a + [x] + b, read) == AddColumns(ColumnTotals(a + b, read), RowColumns(x, read))
  {
    ColumnTotalsAppend(a, b, read);
    ColumnTotalsAppend(a + [x], b, read);
    ColumnTotalsAppend(a, [x], read);
    ColumnTotalsSingle(x, read);
    AddColumnsSwap(ColumnTotals(a, read), RowColumns(x, read), ColumnTotals(b, read));
  }

  lemma AddColumnsSwap(p: Columns, q: Columns, r: Columns)
    ensures AddColumns(AddColumns(p, q), r) == AddColumns(AddColumns(p, r), q)
  {
  }

  /** Removing one row takes exactly its income off the total income. */
  lemma RemovingRowSubtractsIncome(rows: seq<Row>, index: nat)
    requires index < |rows|
    ensures TotalIncome(rows[..index] + rows[index + 1..]) + NumberOr0(rows[index].income) == TotalIncome(rows)
  {
    SplitAround(rows, index);
    TotalIncomeRemove(rows[..index], rows[index], rows[index + 1..]);
  }

  lemma TotalIncomeRemove(a: seq<Row>, x: Row, b: seq<Row>)
    ensures TotalIncome(a + [x] + b) == TotalIncome(a + b) + NumberOr0(x.income)
  {
    TotalIncomeAppend(a, b);
    TotalIncomeAppend(a + [x], b);
    TotalIncomeAppend(a, [x]);
    TotalIncomeSingle(x);
  }

  /** A row whose o, jod and ko read as 0 and whose pan, gun, special and
      income cells are blank adds nothing. */
  lemma BlankRowAddsNothing(r: Row, read: JsVal -> real)
    requires read(r.o) == 0.0 && read(r.jod) == 0.0 && read(r.ko) == 0.0
    requires NumberOr0(SlotVal1(r.pan)) == 0.0 && NumberOr0(SlotVal1(r.gun)) == 0.0
    requires NumberOr0(SlotVal1(r.special)) == 0.0 && NumberOr0(r.income) == 0.0
    ensures ColumnTotals([r], read) == NoColumns && TotalIncome([r]) == 0.0
  {
    ColumnTotalsSingle(r, read);
    TotalIncomeSingle(r);
  }
}
