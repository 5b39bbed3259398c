/** Grouping census rows by household, as `startHouseholdBoosting` in
    `app.js` (a `Map` from family key to its rows, rows without a key left
    out) and the indexing loop of `relations.js` (an object keyed by
    `family`, every row kept) both do. */
module Households {
  import opened Census

  type Index = OrderedMap<string, seq<Row>>

  /** `index.get(k) || []` */
  function Members(h: Index, k: string): seq<Row> {
    if k in h.entries then h.entries[k] else []
  }

  /** The index after the rows have been appended in order; with
      `keepEmpty` false a row whose key is "" is skipped. */
  function Group(rows: seq<Row>, keyOf: Row -> string, keepEmpty: bool): (h: Index)
    ensures h.Valid()
  {
    if rows == [] then EmptyMap()
    else
      var prev := Group(rows[..|rows| - 1], keyOf, keepEmpty);
      var r := rows[|rows| - 1];
      var k := keyOf(r);
      if k == "" && !keepEmpty then prev else prev.Set(k, Members(prev, k) + [r])
  }

  /** The rows of `rows` whose key is `k`, in order. */
  function RowsKeyed(rows: seq<Row>, keyOf: Row -> string, k: string): (rs: seq<Row>)
    ensures forall i :: 0 <= i < |rs| ==> rs[i] in rows && keyOf(rs[i]) == k
  {
    if rows == [] then []
    else
      var prev := RowsKeyed(rows[..|rows| - 1], keyOf, k);
      var r := rows[|rows| - 1];
      prev + (if keyOf(r) == k then [r] else [])
  }

  /** A household lists exactly the rows with its key, in file order; with
      `keepEmpty` false the empty key lists nothing. */
  lemma {:induction false} GroupMembers(rows: seq<Row>, keyOf: Row -> string, keepEmpty: bool, k: string)
    ensures Members(Group(rows, keyOf, keepEmpty), k) == if k == "" && !keepEmpty then [] else RowsKeyed(rows, keyOf, k)
    decreases |rows|
  {
    if rows != [] {
      GroupMembers(rows[..|rows| - 1], keyOf, keepEmpty, k);
    }
  }

  /** A row is listed under its own key, unless that key is empty and
      empty keys are skipped. */
  lemma {:induction false} GroupHas(rows: seq<Row>, keyOf: Row -> string, keepEmpty: bool, r: Row)
    requires r in rows && (keepEmpty || keyOf(r) != "")
    ensures r in Members(Group(rows, keyOf, keepEmpty), keyOf(r))
    decreases |rows|
  {
    var init := rows[..|rows| - 1];
    if r != rows[|rows| - 1] {
      var j :| 0 <= j < |rows| && rows[j] == r;
      assert init[j] == r;
      GroupHas(init, keyOf, keepEmpty, r);
    }
  }

  /** Appending one row extends its own household only. */
  lemma GroupSnoc(rows: seq<Row>, keyOf: Row -> string, keepEmpty: bool, r: Row)
    ensures var prev := Group(rows, keyOf, keepEmpty);
      Group(rows + [r], keyOf, keepEmpty)
      == if keyOf(r) == "" && !keepEmpty then prev else prev.Set(keyOf(r), Members(prev, keyOf(r)) + [r])
  {
    assert (rows + [r])[..|rows|] == rows;
  }

  /** The `i`-th row extends its own household only. */
  lemma GroupStep(rows: seq<Row>, keyOf: Row -> string, keepEmpty: bool, i: nat)
    requires i < |rows|
    ensures var prev := Group(rows[..i], keyOf, keepEmpty);
      var k := keyOf(rows[i]);
      Group(rows[..i + 1], keyOf, keepEmpty)
      == if k == "" && !keepEmpty then prev else prev.Set(k, Members(prev, k) + [rows[i]])
  {
    assert rows[..i + 1][..i] == rows[..i];
  }

  /** The `forEach` loop that builds the index. */
  method GroupRows(rows: seq<Row>, keyOf: Row -> string, keepEmpty: bool) returns (h: Index)
    ensures h == Group(rows, keyOf, keepEmpty)
  {
    h := EmptyMap();
    var i := 0;
    while i < |rows|
      invariant 0 <= i <= |rows|
      invariant h == Group(rows[..i], keyOf, keepEmpty)
    {
      GroupStep(rows, keyOf, keepEmpty, i);
      var r := rows[i];
      var k := keyOf(r);
      if k != "" || keepEmpty {
        var members := Members(h, k);
        h := h.Set(k, members + [r]);
      }
      i := i + 1;
    }
    assert rows[..i] == rows;
  }
}
