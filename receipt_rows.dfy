/** The game-row list of the receipt form: the two default rows, the
    per-cell edits, adding and removing rows, the column-wide special type,
    and the normaliser that brings rows of older receipts into the current
    shape when a receipt is opened for editing. */
module ReceiptRows {
  import opened Js
  import opened Records

  const MaxRows := 10

  function BlankPair(kind: JsVal): Pair { Pair(Str(""), Str(""), kind) }

  /** A fresh row: blank cells, the given pan and special types. */
  function BlankRow(id: JsVal, rowType: string, panKind: string, specialKind: JsVal, m: real): Row {
    Row(id, Str(rowType), Str(""), Str(""), Str(""), Str(""),
        Obj(BlankPair(Str(panKind))), Obj(BlankPair(Undefined)), Obj(BlankPair(specialKind)),
        Some(m), Absent, Absent, Absent)
  }

  /** Every cell of the row that holds an amount is blank. */
  predicate IsBlankRow(r: Row) {
    r.income == Str("") && r.o == Str("") && r.jod == Str("") && r.ko == Str("")
    && SlotVal1(r.pan) == Str("") && SlotVal2(r.pan) == Str("")
    && SlotVal1(r.gun) == Str("") && SlotVal2(r.gun) == Str("")
    && SlotVal1(r.special) == Str("") && SlotVal2(r.special) == Str("")
  }

  /** `getInitialGameRows()`: row 1 of type आ. with multiplier 8, row 2 of
      type कु. with multiplier 9, every cell blank. */
  function InitialGameRows(): (rows: seq<Row>)
    ensures |rows| == 2
    ensures rows[0].rowType == Str("आ.") && rows[0].multiplier == Some(8.0)
    ensures rows[1].rowType == Str("कु.") && rows[1].multiplier == Some(9.0)
    ensures forall i :: 0 <= i < 2 ==> IsBlankRow(rows[i]) && SlotKind(rows[i].special) == Str("jackpot")
  {
    [BlankRow(Num(1.0), "आ.", "sd", Str("jackpot"), 8.0),
     BlankRow(Num(2.0), "कु.", "sd", Str("jackpot"), 9.0)]
  }

  /** The row `addRow` appends: id from the clock, no type, pan type "sp",
      special type the current column-wide type, multiplier 8. */
  function NewRow(now: int, globalSpecialType: JsVal): (r: Row)
    ensures IsBlankRow(r) && r.rowType == Str("") && r.multiplier == Some(8.0)
    ensures SlotKind(r.special) == globalSpecialType
  {
    BlankRow(Num(now as real), "", "sp", globalSpecialType, 8.0)
  }

  // ---------------------------------------------------------------------------
  // Cell text of the o, jod and ko columns

  /** White space becomes '+'. */
  function WhitespaceToPlus(s: string): (r: string)
    ensures |r| == |s|
    ensures forall i :: 0 <= i < |s| ==> r[i] == (if IsWhitespace(s[i]) then '+' else s[i])
  {
    if s == [] then [] else [if IsWhitespace(s[0]) then '+' else s[0]] + WhitespaceToPlus(s[1..])
  }

  predicate NoDoublePlus(s: string) {
    forall i :: 0 <= i < |s| - 1 ==> !(s[i] == '+' && s[i + 1] == '+')
  }

  /** `s` is `r` with each '+' widened into a run of one or more '+' and
      every other character kept. */
  predicate Widens(r: string, s: string)
    decreases |r| + |s|
  {
    if r == [] then s == []
    else if s == [] then false
    else if r[0] == '+' then s[0] == '+' && (Widens(r[1..], s[1..]) || Widens(r, s[1..]))
    else s[0] == r[0] && Widens(r[1..], s[1..])
  }

  lemma {:induction false} WidensSelf(s: string)
    ensures Widens(s, s)
    decreases |s|
  {
    if s != [] {
      WidensSelf(s[1..]);
    }
  }

  /** Every run of two or more '+' becomes one '+': the result has no two
      adjacent '+', and widening its '+' back into runs gives the input. */
  function CollapsePlus(s: string): (r: string)
    ensures |r| <= |s|
    ensures NoDoublePlus(r)
    ensures Widens(r, s)
    ensures s != [] ==> r != [] && r[0] == s[0]
    ensures forall i :: 0 <= i < |r| ==> r[i] in s
    decreases |s|
  {
    if |s| < 2 then WidensSelf(s); s
    else if s[0] == '+' && s[1] == '+' then CollapsePlus(s[1..])
    else
      var r := [s[0]] + CollapsePlus(s[1..]);
      assert r[1..] == CollapsePlus(s[1..]);
      r
  }

  /** Conversely, the only text without two adjacent '+' that widens into
      `s` is `CollapsePlus(s)`. */
  lemma {:induction false} CollapsePlusUnique(r: string, s: string)
    requires NoDoublePlus(r) && Widens(r, s)
    ensures r == CollapsePlus(s)
    decreases |r| + |s|
  {
    if r != [] {
      assert NoDoublePlus(r[1..]) by {
        forall i | 0 <= i < |r[1..]| - 1 ensures !(r[1..][i] == '+' && r[1..][i + 1] == '+') {
          assert r[1..][i] == r[i + 1] && r[1..][i + 1] == r[i + 2];
        }
      }
      if r[0] != '+' {
        CollapsePlusUnique(r[1..], s[1..]);
      } else if Widens(r, s[1..]) {
        CollapsePlusUnique(r, s[1..]);
      } else {
        CollapsePlusUnique(r[1..], s[1..]);
        if |s| >= 2 {
          assert r[1..] == CollapsePlus(s[1..]) && r[1..][0] == s[1];
          assert s[1] != '+' by { assert !(r[0] == '+' && r[1] == '+'); }
        }
      }
    }
  }

  /** The text `handleRowChange` stores for an o, jod or ko cell: white
      space becomes '+', and then every '+' run one '+'. */
  function FormatCellText(s: string): (r: string)
    ensures forall i :: 0 <= i < |r| ==> !IsWhitespace(r[i])
    ensures NoDoublePlus(r)
    ensures Widens(r, WhitespaceToPlus(s))
  {
    var w := WhitespaceToPlus(s);
    assert forall c :: c in w ==> !IsWhitespace(c);
    CollapsePlus(w)
  }

  lemma {:induction false} CollapsePlusFixed(s: string)
    requires NoDoublePlus(s)
    ensures CollapsePlus(s) == s
    decreases |s|
  {
    if |s| >= 2 {
      CollapsePlusFixed(s[1..]);
    }
  }

  lemma {:induction false} WhitespaceToPlusFixed(s: string)
    requires forall i :: 0 <= i < |s| ==> !IsWhitespace(s[i])
    ensures WhitespaceToPlus(s) == s
  {
  }

  /** Formatting a cell twice is the same as formatting it once. */
  lemma FormatCellTextIdempotent(s: string)
    ensures FormatCellText(FormatCellText(s)) == FormatCellText(s)
  {
    var r := FormatCellText(s);
    WhitespaceToPlusFixed(r);
    CollapsePlusFixed(r);
  }

  // ---------------------------------------------------------------------------
  // Cell edits

  /** The input names `handleRowChange` distinguishes. */
  datatype RowField =
    | OCell | JodCell | KoCell
    | PanVal1 | PanVal2 | PanType
    | GunVal1 | GunVal2
    | SpecialVal1 | SpecialVal2 | SpecialType
    | IncomeCell | TypeCell

  /** `{ ...slot, val1: v }` and its siblings: spreading a missing slot (or a
      bare string) leaves only the field that is set. */
  function WithVal1(s: Slot, v: JsVal): Slot { Obj(Pair(v, SlotVal2(s), SlotKind(s))) }
  function WithVal2(s: Slot, v: JsVal): Slot { Obj(Pair(SlotVal1(s), v, SlotKind(s))) }
  function WithKind(s: Slot, v: JsVal): Slot { Obj(Pair(SlotVal1(s), SlotVal2(s), v)) }

  /** The row after one input of `handleRowChange` changes to `value`. */
  function EditRow(r: Row, field: RowField, value: string): (e: Row)
    ensures field.OCell? ==> e == r.(o := Str(FormatCellText(value)))
    ensures field.JodCell? ==> e == r.(jod := Str(FormatCellText(value)))
    ensures field.KoCell? ==> e == r.(ko := Str(FormatCellText(value)))
    ensures field.PanVal1? || field.PanVal2? || field.PanType? ==> e == r.(pan := e.pan) && e.pan.Obj?
    ensures field.GunVal1? || field.GunVal2? ==> e == r.(gun := e.gun) && e.gun.Obj?
    ensures field.SpecialVal1? || field.SpecialVal2? || field.SpecialType? ==> e == r.(special := e.special) && e.special.Obj?
    ensures field.PanVal1? ==> SlotVal1(e.pan) == Str(value) && SlotVal2(e.pan) == SlotVal2(r.pan) && SlotKind(e.pan) == SlotKind(r.pan)
    ensures field.PanVal2? ==> SlotVal1(e.pan) == SlotVal1(r.pan) && SlotVal2(e.pan) == Str(value) && SlotKind(e.pan) == SlotKind(r.pan)
    ensures field.PanType? ==> SlotVal1(e.pan) == SlotVal1(r.pan) && SlotVal2(e.pan) == SlotVal2(r.pan) && SlotKind(e.pan) == Str(value)
    ensures field.GunVal1? ==> SlotVal1(e.gun) == Str(value) && SlotVal2(e.gun) == SlotVal2(r.gun) && SlotKind(e.gun) == SlotKind(r.gun)
    ensures field.GunVal2? ==> SlotVal1(e.gun) == SlotVal1(r.gun) && SlotVal2(e.gun) == Str(value) && SlotKind(e.gun) == SlotKind(r.gun)
    ensures field.SpecialVal1? ==>
      SlotVal1(e.special) == Str(value) && SlotVal2(e.special) == SlotVal2(r.special) && SlotKind(e.special) == SlotKind(r.special)
    ensures field.SpecialVal2? ==>
      SlotVal1(e.special) == SlotVal1(r.special) && SlotVal2(e.special) == Str(value) && SlotKind(e.special) == SlotKind(r.special)
    ensures field.SpecialType? ==>
      SlotVal1(e.special) == SlotVal1(r.special) && SlotVal2(e.special) == SlotVal2(r.special) && SlotKind(e.special) == Str(value)
    ensures field.IncomeCell? ==> e == r.(income := Str(value))
    ensures field.TypeCell? ==> e == r.(rowType := Str(value))
  {
    match field
    case OCell => r.(o := Str(FormatCellText(value)))
    case JodCell => r.(jod := Str(FormatCellText(value)))
    case KoCell => r.(ko := Str(FormatCellText(value)))
    case PanVal1 => r.(pan := WithVal1(r.pan, Str(value)))
    case PanVal2 => r.(pan := WithVal2(r.pan, Str(value)))
    case PanType => r.(pan := WithKind(r.pan, Str(value)))
    case GunVal1 => r.(gun := WithVal1(r.gun, Str(value)))
    case GunVal2 => r.(gun := WithVal2(r.gun, Str(value)))
    case SpecialVal1 => r.(special := WithVal1(r.special, Str(value)))
    case SpecialVal2 => r.(special := WithVal2(r.special, Str(value)))
    case SpecialType => r.(special := WithKind(r.special, Str(value)))
    case IncomeCell => r.(income := Str(value))
    case TypeCell => r.(rowType := Str(value))
  }

  /** On a slot that already is an object, a pair-cell edit sets the one
      sub-field of that object and keeps its other two. */
  lemma PairEditKeepsSiblings(r: Row, value: string)
    ensures r.pan.Obj? ==>
      EditRow(r, PanVal1, value).pan == Obj(r.pan.pair.(val1 := Str(value)))
      && EditRow(r, PanVal2, value).pan == Obj(r.pan.pair.(val2 := Str(value)))
      && EditRow(r, PanType, value).pan == Obj(r.pan.pair.(kind := Str(value)))
    ensures r.gun.Obj? ==>
      EditRow(r, GunVal1, value).gun == Obj(r.gun.pair.(val1 := Str(value)))
      && EditRow(r, GunVal2, value).gun == Obj(r.gun.pair.(val2 := Str(value)))
    ensures r.special.Obj? ==>
      EditRow(r, SpecialVal1, value).special == Obj(r.special.pair.(val1 := Str(value)))
      && EditRow(r, SpecialVal2, value).special == Obj(r.special.pair.(val2 := Str(value)))
      && EditRow(r, SpecialType, value).special == Obj(r.special.pair.(kind := Str(value)))
  {
  }

  /** The special slot after the column-wide type changes to `t`:
      `{ ...(special || { val1: "", val2: "" }), type: t }`. */
  function WithSpecialType(r: Row, t: JsVal): (e: Row)
    ensures e == r.(special := e.special)
    ensures SlotKind(e.special) == t
    ensures r.special.Obj? ==> e.special == Obj(r.special.pair.(kind := t))
    ensures !SlotTruthy(r.special) ==> e.special == Obj(BlankPair(t))
  {
    r.(special := if SlotTruthy(r.special) then WithKind(r.special, t) else Obj(BlankPair(t)))
  }

  /** `handleGlobalSpecialTypeChange` on the row list. */
  function SetSpecialTypeAll(rows: seq<Row>, t: JsVal): (rs: seq<Row>)
    ensures |rs| == |rows|
    ensures forall i :: 0 <= i < |rows| ==> rs[i] == WithSpecialType(rows[i], t)
  {
    if rows == [] then [] else [WithSpecialType(rows[0], t)] + SetSpecialTypeAll(rows[1..], t)
  }

  /** `removeRow(index)`: the first two rows are never removed; otherwise
      the row at `index` (if any) is dropped and the rest keep their order. */
  function RemoveRow(rows: seq<Row>, index: int): (rs: seq<Row>)
    ensures index <= 1 || index >= |rows| ==> rs == rows
    ensures 1 < index < |rows| ==>
      (|rs| == |rows| - 1
       && (forall i :: 0 <= i < index ==> rs[i] == rows[i])
       && (forall i :: index <= i < |rs| ==> rs[i] == rows[i + 1]))
  {
    if 1 < index < |rows| then rows[..index] + rows[index + 1..] else rows
  }

  /** `addRow`: a new row is appended only while there are fewer than ten. */
  function AddRow(rows: seq<Row>, now: int, globalSpecialType: JsVal): (rs: seq<Row>)
    ensures |rows| < MaxRows ==> rs == rows + [NewRow(now, globalSpecialType)]
    ensures |rows| >= MaxRows ==> rs == rows
  {
    if |rows| < MaxRows then rows + [NewRow(now, globalSpecialType)] else rows
  }

  /** Starting from the two default rows, adding and removing rows keeps the
      list between two and ten rows long. */
  lemma AddRemoveKeepBounds(rows: seq<Row>, now: int, t: JsVal, index: int)
    requires 2 <= |rows| <= MaxRows
    ensures 2 <= |AddRow(rows, now, t)| <= MaxRows
    ensures 2 <= |RemoveRow(rows, index)| <= MaxRows
  {
  }

  // ---------------------------------------------------------------------------
  // Rows of older receipts

  /** `v || ""` */
  function OrBlank(v: JsVal): (r: JsVal)
    ensures Truthy(v) ==> r == v
    ensures !Truthy(v) ==> r == Str("")
  {
    if Truthy(v) then v else Str("")
  }

  /** `v || d` */
  function OrDefault(v: JsVal, d: string): JsVal {
    if Truthy(v) then v else Str(d)
  }

  /** The pan slot a loaded row gets: an object keeps its values and its
      type (default "sp"); a bare string becomes val1; anything else is blank. */
  function NormalizePan(p: Slot): (q: Slot)
    ensures q.Obj? && Truthy(q.pair.kind)
  {
    match p
    case Obj(x) => Obj(Pair(OrBlank(x.val1), OrBlank(x.val2), OrDefault(x.kind, "sp")))
    case Text(s) => Obj(Pair(Str(s), Str(""), Str("sp")))
    case Absent => Obj(Pair(Str(""), Str(""), Str("sp")))
  }

  /** A legacy jackpot/berij/frak slot turned into the special slot of that type. */
  function LegacySpecial(s: Slot, kind: string): Slot {
    Obj(Pair(OrBlank(SlotVal1(s)), OrBlank(SlotVal2(s)), Str(kind)))
  }

  /** The special slot a loaded row gets: its own `special` if present, else
      the first present of `jackpot`, `berij`, `frak`, else a blank jackpot. */
  function NormalizeSpecial(r: Row): (s: Slot)
    ensures SlotTruthy(s)
    ensures SlotTruthy(r.special) ==> s == r.special
    ensures !SlotTruthy(r.special) && SlotTruthy(r.jackpot) ==> s == LegacySpecial(r.jackpot, "jackpot")
    ensures !SlotTruthy(r.special) && !SlotTruthy(r.jackpot) && SlotTruthy(r.berij) ==> s == LegacySpecial(r.berij, "berij")
    ensures !SlotTruthy(r.special) && !SlotTruthy(r.jackpot) && !SlotTruthy(r.berij) && SlotTruthy(r.frak)
      ==> s == LegacySpecial(r.frak, "frak")
    ensures !SlotTruthy(r.special) && !SlotTruthy(r.jackpot) && !SlotTruthy(r.berij) && !SlotTruthy(r.frak)
      ==> s == Obj(BlankPair(Str("jackpot")))
  {
    if SlotTruthy(r.special) then r.special
    else if SlotTruthy(r.jackpot) then LegacySpecial(r.jackpot, "jackpot")
    else if SlotTruthy(r.berij) then LegacySpecial(r.berij, "berij")
    else if SlotTruthy(r.frak) then LegacySpecial(r.frak, "frak")
    else Obj(BlankPair(Str("jackpot")))
  }

  /** The row sanitiser applied when a receipt is loaded for editing. */
  function NormalizeRow(r: Row): (n: Row)
    ensures n.id == r.id && n.rowType == r.rowType && n.income == r.income
    ensures n.o == r.o && n.jod == r.jod && n.ko == r.ko && n.multiplier == r.multiplier
    ensures n.pan.Obj? && n.gun.Obj? && SlotTruthy(n.special)
    ensures n.jackpot == Absent && n.berij == Absent && n.frak == Absent
    ensures r.gun.Obj? ==> n.gun == r.gun
  {
    r.(pan := NormalizePan(r.pan),
       gun := if r.gun.Obj? then r.gun else Obj(BlankPair(Undefined)),
       special := NormalizeSpecial(r),
       jackpot := Absent, berij := Absent, frak := Absent)
  }

  /** `(receipt.gameRows || getInitialGameRows()).map(sanitise)` */
  function NormalizeRows(rows: Option<seq<Row>>): (rs: seq<Row>)
    ensures rows.Some? ==> |rs| == |rows.value| && forall i :: 0 <= i < |rs| ==> rs[i] == NormalizeRow(rows.value[i])
    ensures rows.None? ==> |rs| == 2
  {
    var src := if rows.Some? then rows.value else InitialGameRows();
    seq(|src|, i requires 0 <= i < |src| => NormalizeRow(src[i]))
  }

  /** Normalising a row that is already normalised changes nothing. */
  lemma NormalizeRowIdempotent(r: Row)
    ensures NormalizeRow(NormalizeRow(r)) == NormalizeRow(r)
  {
    var n := NormalizeRow(r);
    assert NormalizePan(n.pan) == n.pan;
  }

  /** The sanitiser does not change what the pan and gun cells contribute:
      a bare-string pan has no second value, so its product stays 0. */
  lemma NormalizeKeepsPanAndGunProducts(r: Row)
    ensures SlotProduct(NormalizeRow(r).pan) == SlotProduct(r.pan)
    ensures SlotProduct(NormalizeRow(r).gun) == SlotProduct(r.gun)
  {
    if r.pan.Obj? {
      var x := r.pan.pair;
      assert NumberOr0(OrBlank(x.val1)) == NumberOr0(x.val1);
      assert NumberOr0(OrBlank(x.val2)) == NumberOr0(x.val2);
    } else if r.pan.Text? {
      assert NumberOr0(Str("")) == 0.0 by { assert Trim("") == ""; }
    }
  }

  /** `sanitizedGameRows[0]?.special?.type || "jackpot"`: the column-wide
      special type after loading. */
  function LoadedSpecialType(rows: seq<Row>): (t: JsVal)
    ensures Truthy(t)
    ensures rows != [] && Truthy(SlotKind(rows[0].special)) ==> t == SlotKind(rows[0].special)
  {
    if rows != [] && Truthy(SlotKind(rows[0].special)) then SlotKind(rows[0].special) else Str("jackpot")
  }
}
