// Model of `mapValuesToRow` (extension_scripts.js): a spreadsheet macro that
// copies each value of column Y into column W of the row whose column A holds
// the id written beside it in column X.

module ExtensionScripts {

  /** A cell value as `getValues()` reports it; an empty cell is `Text("")`. */
  datatype CellValue = Text(s: string) | Number(n: int) | Flag(b: bool)

  const Blank := Text("")

  /** `col.indexOf(v)`: the first position holding `v` (strict equality), or -1. */
  function IndexOf(col: seq<CellValue>, v: CellValue): (r: int)
    ensures -1 <= r < |col|
    ensures r >= 0 ==> col[r] == v && forall j :: 0 <= j < r ==> col[j] != v
    ensures r == -1 <==> v !in col
  {
    if col == [] then -1
    else if col[0] == v then 0
    else
      var t := IndexOf(col[1..], v);
      assert v in col[1..] <==> v in col by {
        assert col == [col[0]] + col[1..];
      }
      if t == -1 then -1 else t + 1
  }

  /** The sheet row one change writes to: none (-1) for a blank id or an id
      missing from column A; otherwise the row of the id's first occurrence
      in A, counted from 1 with the header in row 1. */
  function TargetRow(colA: seq<CellValue>, id: CellValue): (row: int)
    ensures id == Blank ==> row == -1
    ensures id != Blank && id !in colA ==> row == -1
    ensures id != Blank && id in colA ==>
      2 <= row < |colA| + 2 && colA[row - 2] == id && forall j :: 0 <= j < row - 2 ==> colA[j] != id
  {
    if id == Blank then -1
    else
      var t := IndexOf(colA, id);
      if t == -1 then -1 else t + 2
  }

  /** Column W after the first `n` changes, applied in order. */
  function Applied(w: map<int, CellValue>, colA: seq<CellValue>, colX: seq<CellValue>,
                   colY: seq<CellValue>, n: nat): map<int, CellValue>
    requires n <= |colX| && |colX| == |colY|
  {
    if n == 0 then w
    else
      var before := Applied(w, colA, colX, colY, n - 1);
      var row := TargetRow(colA, colX[n - 1]);
      if row == -1 then before else before[row := colY[n - 1]]
  }

  /** The last of the first `n` changes that targets `row`, or -1 if none does. */
  function LastChange(colA: seq<CellValue>, colX: seq<CellValue>, row: int, n: nat): (i: int)
    requires n <= |colX|
    ensures -1 <= i < n
    ensures i == -1 <==> forall j :: 0 <= j < n ==> TargetRow(colA, colX[j]) != row
    ensures i >= 0 ==>
      (TargetRow(colA, colX[i]) == row && forall j :: i < j < n ==> TargetRow(colA, colX[j]) != row)
  {
    if n == 0 then -1
    else if TargetRow(colA, colX[n - 1]) == row then n - 1
    else LastChange(colA, colX, row, n - 1)
  }

  /** A row targeted by change `i` and by no later change ends up holding
      the value of change `i`. */
  lemma {:induction false} AppliedWritten(w: map<int, CellValue>, colA: seq<CellValue>,
                                          colX: seq<CellValue>, colY: seq<CellValue>, n: nat, i: nat)
    requires n <= |colX| && |colX| == |colY| && i < n
    requires TargetRow(colA, colX[i]) != -1
    requires forall j :: i < j < n ==> TargetRow(colA, colX[j]) != TargetRow(colA, colX[i])
    ensures TargetRow(colA, colX[i]) in Applied(w, colA, colX, colY, n)
    ensures Applied(w, colA, colX, colY, n)[TargetRow(colA, colX[i])] == colY[i]
  {
    if i < n - 1 {
      AppliedWritten(w, colA, colX, colY, n - 1, i);
    }
  }

  /** A row no change targets keeps its old content, or stays empty. */
  lemma {:induction false} AppliedUntouched(w: map<int, CellValue>, colA: seq<CellValue>,
                                            colX: seq<CellValue>, colY: seq<CellValue>, n: nat, row: int)
    requires n <= |colX| && |colX| == |colY|
    requires forall j :: 0 <= j < n ==> TargetRow(colA, colX[j]) != row
    ensures row in Applied(w, colA, colX, colY, n) <==> row in w
    ensures row in w ==> Applied(w, colA, colX, colY, n)[row] == w[row]
  {
    if n > 0 {
      AppliedUntouched(w, colA, colX, colY, n - 1, row);
    }
  }

  /** Every cell of W holds the value of the last change that targets its
      row; a row no change targets keeps its old content, or stays empty. */
  lemma AppliedCell(w: map<int, CellValue>, colA: seq<CellValue>,
                    colX: seq<CellValue>, colY: seq<CellValue>, row: int)
    requires |colX| == |colY| && row != -1
    ensures var i := LastChange(colA, colX, row, |colX|);
      var after := Applied(w, colA, colX, colY, |colX|);
      if i == -1 then (row in after <==> row in w) && (row in w ==> after[row] == w[row])
      else row in after && after[row] == colY[i]
  {
    var i := LastChange(colA, colX, row, |colX|);
    if i == -1 {
      AppliedUntouched(w, colA, colX, colY, |colX|, row);
    } else {
      AppliedWritten(w, colA, colX, colY, |colX|, i);
    }
  }

  /** The rows targeted by the first `n` changes. */
  function Targets(colA: seq<CellValue>, colX: seq<CellValue>, n: nat): set<int>
    requires n <= |colX|
  {
    set j | 0 <= j < n && TargetRow(colA, colX[j]) != -1 :: TargetRow(colA, colX[j])
  }

  /** The rows targeted by the first `n` changes: those of the first `n - 1`,
      and the row of change `n - 1` when it has one. */
  lemma TargetsSnoc(colA: seq<CellValue>, colX: seq<CellValue>, n: nat)
    requires 0 < n <= |colX|
    ensures var t := TargetRow(colA, colX[n - 1]);
      Targets(colA, colX, n) == Targets(colA, colX, n - 1) + (if t == -1 then {} else {t})
  {
    TargetsGrow(colA, colX, n);
    TargetsBounded(colA, colX, n);
  }

  lemma TargetsGrow(colA: seq<CellValue>, colX: seq<CellValue>, n: nat)
    requires 0 < n <= |colX|
    ensures var t := TargetRow(colA, colX[n - 1]);
      Targets(colA, colX, n - 1) + (if t == -1 then {} else {t}) <= Targets(colA, colX, n)
  {
    var t := TargetRow(colA, colX[n - 1]);
    if t != -1 {
      assert t in Targets(colA, colX, n);
    }
  }

  lemma TargetsBounded(colA: seq<CellValue>, colX: seq<CellValue>, n: nat)
    requires 0 < n <= |colX|
    ensures var t := TargetRow(colA, colX[n - 1]);
      Targets(colA, colX, n) <= Targets(colA, colX, n - 1) + (if t == -1 then {} else {t})
  {
    var prev := Targets(colA, colX, n - 1);
    forall x | x in Targets(colA, colX, n) ensures x in prev || x == TargetRow(colA, colX[n - 1]) {
      var j :| 0 <= j < n && TargetRow(colA, colX[j]) != -1 && x == TargetRow(colA, colX[j]);
      if j < n - 1 { assert x in prev; }
    }
  }

  /** One more change adds its target row, if any, to the rows of W. */
  lemma AppliedKeysStep(w: map<int, CellValue>, colA: seq<CellValue>,
                        colX: seq<CellValue>, colY: seq<CellValue>, n: nat)
    requires 0 < n <= |colX| && |colX| == |colY|
    ensures var t := TargetRow(colA, colX[n - 1]);
      Applied(w, colA, colX, colY, n).Keys
      == Applied(w, colA, colX, colY, n - 1).Keys + (if t == -1 then {} else {t})
  {
  }

  /** The rows that are written: exactly those some change targets. */
  lemma {:induction false} AppliedKeys(w: map<int, CellValue>, colA: seq<CellValue>,
                                       colX: seq<CellValue>, colY: seq<CellValue>, n: nat)
    requires n <= |colX| && |colX| == |colY|
    ensures Applied(w, colA, colX, colY, n).Keys == w.Keys + Targets(colA, colX, n)
  {
    if n > 0 {
      AppliedKeys(w, colA, colX, colY, n - 1);
      TargetsSnoc(colA, colX, n);
      AppliedKeysStep(w, colA, colX, colY, n);
    } else {
      assert Targets(colA, colX, 0) == {};
    }
  }

  /** The sheet: columns A (rows 2 to the last), X and Y (rows 2 to 8000)
      as read at the start, and column W keyed by sheet row. */
  class Sheet {
    const colA: seq<CellValue>
    const colX: seq<CellValue>
    const colY: seq<CellValue>
    var colW: map<int, CellValue>

    /** X and Y are read over the same range of rows. */
    predicate Valid() {
      |colX| == |colY|
    }

    constructor (a: seq<CellValue>, x: seq<CellValue>, y: seq<CellValue>, w: map<int, CellValue>)
      requires |x| == |y|
      ensures Valid()
      ensures colA == a && colX == x && colY == y && colW == w
    {
      colA, colX, colY, colW := a, x, y, w;
    }

    /** `mapValuesToRow()`: applies every change in order; only column W
        changes. */
    method MapValuesToRow()
      requires Valid()
      modifies this
      ensures colW == Applied(old(colW), colA, colX, colY, |colX|)
    {
      for i := 0 to |colX|
        invariant colW == Applied(old(colW), colA, colX, colY, i)
      {
        var idToFind := colX[i];
        var valueToMove := colY[i];
        if idToFind == Blank {
          continue;
        }
        var targetRowIndex := IndexOf(colA, idToFind);
        if targetRowIndex != -1 {
          var actualRow := targetRowIndex + 2;
          colW := colW[actualRow := valueToMove];
        }
      }
    }
  }
}
