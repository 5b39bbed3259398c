/** Blocking and candidate generation, shared by `app.js`
    (`addToBlock`, `startBlocking`, `startScoring`) and
    `resources/matcher_logic.js` (`runMatching`, steps 1 and 2). Both build a
    `Map` from block key to `{ list70, list80 }`, then score every
    cross-census pair of every block whose two lists are non-empty, once per
    pair id, keeping pairs that clear a score floor. The two revisions differ
    only in the key function, the scorer, the floor and the tier cut points,
    which are parameters here. */
module Blocking {
  import opened Strings
  import opened Census
  import Ranking

  /** `{ list70: [], list80: [] }` */
  datatype Block = Block(list70: seq<Row>, list80: seq<Row>)

  type Blocks = OrderedMap<string, Block>

  /** The block keys of a row (`getBlockKeys`). */
  type KeyFn = Row -> seq<string>

  ghost predicate NoDup(s: seq<string>) {
    forall i, j :: 0 <= i < j < |s| ==> s[i] != s[j]
  }

  /** A key function never gives one row the same key twice. */
  ghost predicate DistinctKeys(keysOf: KeyFn) {
    forall r: Row :: NoDup(keysOf(r))
  }

  /** A tagged key `B<tag>:<part>|<part>|…` */
  function Key(tag: char, parts: seq<string>): (k: string)
    ensures |k| >= 3 && k[0] == 'B' && k[1] == tag && k[2] == ':'
  {
    "B" + [tag] + ":" + Join("|", parts)
  }

  /** The key list when the condition holds, else nothing. */
  function KeyIf(c: bool, k: string): (r: seq<string>)
    ensures |r| == if c then 1 else 0
  {
    if c then [k] else []
  }

  /** Some key of the list carries the tag `tag`. */
  predicate HasTag(keys: seq<string>, tag: char) {
    exists i :: 0 <= i < |keys| && |keys[i]| >= 2 && keys[i][1] == tag
  }

  /** A key with tag `tag` is among three optional keys tagged '1', '2'
      and '3' exactly when the condition of that key holds. */
  lemma TaggedKeys(c1: bool, c2: bool, c3: bool, x1: string, x2: string, x3: string)
    requires |x1| >= 2 && |x2| >= 2 && |x3| >= 2 && x1[1] == '1' && x2[1] == '2' && x3[1] == '3'
    ensures HasTag(KeyIf(c1, x1) + KeyIf(c2, x2) + KeyIf(c3, x3), '1') <==> c1
    ensures HasTag(KeyIf(c1, x1) + KeyIf(c2, x2) + KeyIf(c3, x3), '2') <==> c2
    ensures HasTag(KeyIf(c1, x1) + KeyIf(c2, x2) + KeyIf(c3, x3), '3') <==> c3
  {
    var keys := KeyIf(c1, x1) + KeyIf(c2, x2) + KeyIf(c3, x3);
    var n1 := if c1 then 1 else 0;
    var n2 := if c2 then 1 else 0;
    forall i | 0 <= i < |keys| ensures keys[i][1] == (if i < n1 then '1' else if i < n1 + n2 then '2' else '3') {
    }
    if c1 { assert keys[0][1] == '1'; }
    if c2 { assert keys[n1][1] == '2'; }
    if c3 { assert keys[n1 + n2][1] == '3'; }
  }

  /** The up-to-three keys of a record, tagged '1', '2' and '3', each
      present exactly when its condition holds, in tag order. */
  function Keys3(c1: bool, p1: seq<string>, c2: bool, p2: seq<string>, c3: bool, p3: seq<string>): (keys: seq<string>)
    ensures |keys| <= 3
    ensures forall i :: 0 <= i < |keys| ==> |keys[i]| >= 3 && keys[i][0] == 'B' && keys[i][2] == ':'
    ensures forall i, j :: 0 <= i < j < |keys| ==> keys[i][1] < keys[j][1]
    ensures NoDup(keys)
    ensures HasTag(keys, '1') <==> c1
    ensures HasTag(keys, '2') <==> c2
    ensures HasTag(keys, '3') <==> c3
  {
    TaggedKeys(c1, c2, c3, Key('1', p1), Key('2', p2), Key('3', p3));
    KeyIf(c1, Key('1', p1)) + KeyIf(c2, Key('2', p2)) + KeyIf(c3, Key('3', p3))
  }

  /** `addToBlock(key, record, type)`: creates the block on first use and
      appends the record to the list of its census. */
  function AddToBlock(b: Blocks, key: string, r: Row, side70: bool): (b': Blocks)
    ensures b.Valid() ==> b'.Valid()
  {
    var blk := if key in b.entries then b.entries[key] else Block([], []);
    b.Set(key, if side70 then blk.(list70 := blk.list70 + [r]) else blk.(list80 := blk.list80 + [r]))
  }

  /** `keys.forEach(k => addToBlock(k, row, type))` */
  function AddKeys(b: Blocks, keys: seq<string>, r: Row, side70: bool): (b': Blocks)
    ensures b.Valid() ==> b'.Valid()
  {
    if keys == [] then b else AddToBlock(AddKeys(b, keys[..|keys| - 1], r, side70), keys[|keys| - 1], r, side70)
  }

  /** `rows.forEach(row => getBlockKeys(row).forEach(k => addToBlock(k, row, type)))` */
  function AddRows(b: Blocks, keysOf: KeyFn, rows: seq<Row>, side70: bool): (b': Blocks)
    ensures b.Valid() ==> b'.Valid()
  {
    if rows == [] then b
    else AddKeys(AddRows(b, keysOf, rows[..|rows| - 1], side70), keysOf(rows[|rows| - 1]), rows[|rows| - 1], side70)
  }

  /** Adding one more row adds its keys to the blocks of the rows before it. */
  lemma AddRowsSnoc(b: Blocks, keysOf: KeyFn, rows: seq<Row>, r: Row, side70: bool)
    ensures AddRows(b, keysOf, rows + [r], side70) == AddKeys(AddRows(b, keysOf, rows, side70), keysOf(r), r, side70)
  {
    assert (rows + [r])[..|rows|] == rows;
  }

  /** The block map after both censuses have been added, 1870 first. */
  function BuildBlocks(keysOf: KeyFn, d70: seq<Row>, d80: seq<Row>): (b: Blocks)
    ensures b.Valid()
  {
    AddRows(AddRows(EmptyMap(), keysOf, d70, true), keysOf, d80, false)
  }

  /** The `keys.forEach(k => addToBlock(k, row, type))` loop on a local block map. */
  method AddKeysLoop(b0: Blocks, keys: seq<string>, r: Row, side70: bool) returns (b: Blocks)
    ensures b == AddKeys(b0, keys, r, side70)
  {
    b := b0;
    var j := 0;
    while j < |keys|
      invariant 0 <= j <= |keys|
      invariant b == AddKeys(b0, keys[..j], r, side70)
    {
      var key := keys[j];
      var blk := if key in b.entries then b.entries[key] else Block([], []);
      if side70 {
        blk := blk.(list70 := blk.list70 + [r]);
      } else {
        blk := blk.(list80 := blk.list80 + [r]);
      }
      b := b.Set(key, blk);
      assert keys[..j + 1][..j] == keys[..j];
      j := j + 1;
    }
    assert keys[..j] == keys;
  }

  /** The `data.forEach(row => …)` loop that adds every row of one census. */
  method AddRowsLoop(b0: Blocks, keysOf: KeyFn, rows: seq<Row>, side70: bool) returns (b: Blocks)
    ensures b == AddRows(b0, keysOf, rows, side70)
  {
    b := b0;
    var i := 0;
    while i < |rows|
      invariant 0 <= i <= |rows|
      invariant b == AddRows(b0, keysOf, rows[..i], side70)
    {
      b := AddKeysLoop(b, keysOf(rows[i]), rows[i], side70);
      assert rows[..i + 1][..i] == rows[..i];
      i := i + 1;
    }
    assert rows[..i] == rows;
  }

  /** One side's list of block `k`, empty when there is no such block. */
  function ListOf(b: Blocks, k: string, side70: bool): seq<Row> {
    if k !in b.entries then [] else if side70 then b.entries[k].list70 else b.entries[k].list80
  }

  /** The rows of `rows` that have key `k`, in file order. */
  function RowsWithKey(keysOf: KeyFn, rows: seq<Row>, k: string): seq<Row> {
    if rows == [] then []
    else RowsWithKey(keysOf, rows[..|rows| - 1], k) + (if k in keysOf(rows[|rows| - 1]) then [rows[|rows| - 1]] else [])
  }

  lemma {:induction false} AddKeysLists(b: Blocks, keys: seq<string>, r: Row, side70: bool, k: string)
    requires NoDup(keys)
    ensures ListOf(AddKeys(b, keys, r, side70), k, side70) == ListOf(b, k, side70) + (if k in keys then [r] else [])
    ensures ListOf(AddKeys(b, keys, r, side70), k, !side70) == ListOf(b, k, !side70)
    decreases |keys|
  {
    if keys != [] {
      var init := keys[..|keys| - 1];
      var last := keys[|keys| - 1];
      NoDupInit(keys);
      AddKeysLists(b, init, r, side70, k);
      AddToBlockLists(AddKeys(b, init, r, side70), last, r, side70, k);
      assert keys == init + [last];
      var before := ListOf(b, k, side70);
      if k == last {
        assert ListOf(AddKeys(b, keys, r, side70), k, side70) == before + [r];
      } else if k in init {
        assert ListOf(AddKeys(b, keys, r, side70), k, side70) == before + [r];
      } else {
        assert ListOf(AddKeys(b, keys, r, side70), k, side70) == before;
      }
    }
  }

  /** Adding a row under one key appends it to that block's list on its side
      and leaves every other list as it was. */
  lemma AddToBlockLists(b: Blocks, key: string, r: Row, side70: bool, k: string)
    ensures ListOf(AddToBlock(b, key, r, side70), k, side70) == ListOf(b, k, side70) + (if k == key then [r] else [])
    ensures ListOf(AddToBlock(b, key, r, side70), k, !side70) == ListOf(b, k, !side70)
  {
  }

  /** Without duplicates, the last key is not among the earlier ones. */
  lemma NoDupInit(keys: seq<string>)
    requires keys != [] && NoDup(keys)
    ensures NoDup(keys[..|keys| - 1]) && keys[|keys| - 1] !in keys[..|keys| - 1]
  {
    var init := keys[..|keys| - 1];
    forall i | 0 <= i < |init| ensures init[i] == keys[i] && init[i] != keys[|keys| - 1] {
    }
  }

  /** After adding `rows`, block `k`'s list of that census has grown by
      exactly the rows having key `k`, in file order, and the other
      census's list is unchanged. */
  lemma {:induction false} AddRowsLists(b: Blocks, keysOf: KeyFn, rows: seq<Row>, side70: bool, k: string)
    requires DistinctKeys(keysOf)
    ensures ListOf(AddRows(b, keysOf, rows, side70), k, side70) == ListOf(b, k, side70) + RowsWithKey(keysOf, rows, k)
    ensures ListOf(AddRows(b, keysOf, rows, side70), k, !side70) == ListOf(b, k, !side70)
    decreases |rows|
  {
    if rows != [] {
      var init := rows[..|rows| - 1];
      var last := rows[|rows| - 1];
      AddRowsLists(b, keysOf, init, side70, k);
      assert NoDup(keysOf(last));
      AddKeysLists(AddRows(b, keysOf, init, side70), keysOf(last), last, side70, k);
    }
  }

  /** Every row lands in every one of its blocks: block `k` lists exactly
      the 1870 rows and exactly the 1880 rows having key `k`, in file order. */
  lemma BuildBlocksLists(keysOf: KeyFn, d70: seq<Row>, d80: seq<Row>, k: string)
    requires DistinctKeys(keysOf)
    ensures ListOf(BuildBlocks(keysOf, d70, d80), k, true) == RowsWithKey(keysOf, d70, k)
    ensures ListOf(BuildBlocks(keysOf, d70, d80), k, false) == RowsWithKey(keysOf, d80, k)
  {
    var b0: Blocks := EmptyMap();
    AddRowsLists(b0, keysOf, d70, true, k);
    AddRowsLists(b0, keysOf, d70, false, k);
    AddRowsLists(AddRows(b0, keysOf, d70, true), keysOf, d80, false, k);
    AddRowsLists(AddRows(b0, keysOf, d70, true), keysOf, d80, true, k);
  }

  /** The pair scorer (`calculateScore`). */
  type Scorer = (Row, Row) -> Scored

  /** What one revision keeps: its scorer, its score floor and its tier cut points. */
  datatype Policy = Policy(scorer: Scorer, floor: int, tierOf: int -> int)

  type Cands = OrderedMap<string, Candidate>

  /** A candidate cleared the floor and carries the (non-zero) tier of its score. */
  ghost predicate Qualifies(c: Candidate, p: Policy) {
    c.score >= p.floor && c.tier == p.tierOf(c.score) && c.tier > 0
  }

  /** Every stored candidate sits under its own pair id and qualifies. */
  ghost predicate Stored(cm: Cands, p: Policy) {
    && cm.Valid()
    && forall k :: k in cm.entries ==> PairId(cm.entries[k].r70, cm.entries[k].r80) == k && Qualifies(cm.entries[k], p)
  }

  /** Every candidate of the list qualifies. */
  ghost predicate AllQualify(s: seq<Candidate>, p: Policy) {
    forall i :: 0 <= i < |s| ==> Qualifies(s[i], p)
  }

  /** Storing a qualifying candidate under its own pair id keeps the map stored. */
  lemma SetStored(cm: Cands, k: string, c: Candidate, p: Policy)
    ensures Stored(cm, p) && PairId(c.r70, c.r80) == k && Qualifies(c, p) ==> Stored(cm.Set(k, c), p)
  {
  }

  lemma ValuesQualify(cm: Cands, p: Policy)
    requires Stored(cm, p)
    ensures AllQualify(cm.Values(), p)
  {
  }

  /** Resolution keeps qualifying: the greedy walk over the sorted
      candidates is one-to-one, in non-increasing score order, and every
      candidate it accepts still qualifies. */
  lemma ResolvedQualify(s: seq<Candidate>, p: Policy)
    requires AllQualify(s, p)
    ensures var all := Ranking.Greedy(Ranking.SortByScore(s), {}, {});
      Ranking.OneToOne(all) && Ranking.NonIncreasing(all) && AllQualify(all, p)
  {
    var sorted := Ranking.SortByScore(s);
    Ranking.SortByScoreCorrect(s);
    Ranking.GreedyOneToOne(sorted, {}, {});
    Ranking.GreedySorted(sorted, {}, {});
    var all := Ranking.Greedy(sorted, {}, {});
    Ranking.GreedyFromInput(sorted, {}, {});
    forall i | 0 <= i < |all| ensures Qualifies(all[i], p) {
      var j :| 0 <= j < |sorted| && sorted[j] == all[i];
      assert sorted[j] in multiset(s);
      var k :| 0 <= k < |s| && s[k] == sorted[j];
    }
  }

  /** `cm'` keeps every entry of `cm` unchanged, in the same order. */
  ghost predicate Extends(cm: Cands, cm': Cands) {
    && cm.keys <= cm'.keys
    && forall k :: k in cm.entries ==> k in cm'.entries && cm'.entries[k] == cm.entries[k]
  }

  /** The pair's score clears the floor and falls in a tier. */
  predicate Clears(p: Policy, r70: Row, r80: Row) {
    p.scorer(r70, r80).score >= p.floor && p.tierOf(p.scorer(r70, r80).score) > 0
  }

  /** Every stored candidate carries the score and the evidence its scorer
      gives its own pair. */
  ghost predicate ScoredBy(cm: Cands, p: Policy) {
    forall k :: k in cm.entries ==>
      && cm.entries[k].score == p.scorer(cm.entries[k].r70, cm.entries[k].r80).score
      && cm.entries[k].details == p.scorer(cm.entries[k].r70, cm.entries[k].r80).details
  }

  /** Every pair of an 1870 row and an 1880 row of one same block whose
      score clears the floor has its pair id in the map. */
  ghost predicate Complete(cm: Cands, b: Blocks, p: Policy) {
    forall key, r70, r80 :: key in b.entries && r70 in b.entries[key].list70 && r80 in b.entries[key].list80 && Clears(p, r70, r80)
      ==> PairId(r70, r80) in cm.entries
  }

  /** The body of the innermost loop: a pair already in the map is skipped,
      otherwise it is scored and stored when it clears the floor. */
  function ScorePair(cm: Cands, r70: Row, r80: Row, p: Policy): (r: Cands)
    ensures Stored(cm, p) ==> Stored(r, p)
    ensures Extends(cm, r)
    ensures PairId(r70, r80) !in cm.entries && Clears(p, r70, r80) ==>
      r.entries == cm.entries[PairId(r70, r80) := Candidate(r70, r80, p.scorer(r70, r80).score, p.scorer(r70, r80).details, p.tierOf(p.scorer(r70, r80).score))]
    ensures PairId(r70, r80) in cm.entries || !Clears(p, r70, r80) ==> r == cm
    ensures forall k :: k in r.entries && k !in cm.entries ==> r.entries[k].r70 == r70 && r.entries[k].r80 == r80
  {
    var pid := PairId(r70, r80);
    if pid in cm.entries then cm
    else
      var res := p.scorer(r70, r80);
      if res.score >= p.floor && p.tierOf(res.score) > 0 then
        cm.Set(pid, Candidate(r70, r80, res.score, res.details, p.tierOf(res.score)))
      else cm
  }

  /** `for (const r80 of list80)` for one 1870 row. */
  function ScoreAgainst(cm: Cands, r70: Row, l80: seq<Row>, p: Policy): (r: Cands)
    ensures Stored(cm, p) ==> Stored(r, p)
    ensures Extends(cm, r)
    ensures forall k :: k in r.entries && k !in cm.entries ==> r.entries[k].r70 == r70 && r.entries[k].r80 in l80
  {
    if l80 == [] then cm
    else
      var prev := ScoreAgainst(cm, r70, l80[..|l80| - 1], p);
      ScorePair(prev, r70, l80[|l80| - 1], p)
  }

  /** `for (const r70 of list70) for (const r80 of list80)` */
  function ScoreLists(cm: Cands, l70: seq<Row>, l80: seq<Row>, p: Policy): (r: Cands)
    ensures Stored(cm, p) ==> Stored(r, p)
    ensures Extends(cm, r)
    ensures forall k :: k in r.entries && k !in cm.entries ==> r.entries[k].r70 in l70 && r.entries[k].r80 in l80
  {
    if l70 == [] then cm
    else
      var prev := ScoreLists(cm, l70[..|l70| - 1], l80, p);
      ScoreAgainst(prev, l70[|l70| - 1], l80, p)
  }

  /** A block with an empty side is skipped. */
  function ScoreBlock(cm: Cands, blk: Block, p: Policy): (r: Cands)
    ensures Stored(cm, p) ==> Stored(r, p)
    ensures Extends(cm, r)
    ensures blk.list70 == [] || blk.list80 == [] ==> r == cm
    ensures forall k :: k in r.entries && k !in cm.entries ==> r.entries[k].r70 in blk.list70 && r.entries[k].r80 in blk.list80
  {
    if |blk.list70| > 0 && |blk.list80| > 0 then ScoreLists(cm, blk.list70, blk.list80, p) else cm
  }

  /** Candidates from the blocks named by `ks`, taken in that order. */
  function ScoreBlocks(cm: Cands, b: Blocks, ks: seq<string>, p: Policy): (r: Cands)
    ensures Stored(cm, p) ==> Stored(r, p)
    ensures Extends(cm, r)
  {
    if ks == [] then cm
    else
      var prev := ScoreBlocks(cm, b, ks[..|ks| - 1], p);
      var key := ks[|ks| - 1];
      if key in b.entries then ScoreBlock(prev, b.entries[key], p) else prev
  }

  /** The candidate map built from all blocks, in block insertion order:
      every entry is stored under its pair id, clears the floor, has the tier
      of its score, and pairs an 1870 row and an 1880 row of one same block. */
  function ScoreAll(b: Blocks, p: Policy): (r: Cands)
    ensures Stored(r, p)
    ensures ScoredBy(r, p)
    ensures b.Valid() ==> Complete(r, b, p)
  {
    ScoreBlocksScored(EmptyMap(), b, b.keys, p);
    ScoreBlocksComplete(b, p);
    ScoreBlocks(EmptyMap(), b, b.keys, p)
  }

  lemma {:induction false} ScoreAgainstScored(cm: Cands, r70: Row, l80: seq<Row>, p: Policy)
    requires ScoredBy(cm, p)
    ensures ScoredBy(ScoreAgainst(cm, r70, l80, p), p)
    decreases |l80|
  {
    if l80 != [] {
      ScoreAgainstScored(cm, r70, l80[..|l80| - 1], p);
    }
  }

  lemma {:induction false} ScoreListsScored(cm: Cands, l70: seq<Row>, l80: seq<Row>, p: Policy)
    requires ScoredBy(cm, p)
    ensures ScoredBy(ScoreLists(cm, l70, l80, p), p)
    decreases |l70|
  {
    if l70 != [] {
      ScoreListsScored(cm, l70[..|l70| - 1], l80, p);
      ScoreAgainstScored(ScoreLists(cm, l70[..|l70| - 1], l80, p), l70[|l70| - 1], l80, p);
    }
  }

  /** Scoring blocks stores every candidate with its scorer's score and evidence. */
  lemma {:induction false} ScoreBlocksScored(cm: Cands, b: Blocks, ks: seq<string>, p: Policy)
    requires ScoredBy(cm, p)
    ensures ScoredBy(ScoreBlocks(cm, b, ks, p), p)
    decreases |ks|
  {
    if ks != [] {
      var prev := ScoreBlocks(cm, b, ks[..|ks| - 1], p);
      ScoreBlocksScored(cm, b, ks[..|ks| - 1], p);
      var key := ks[|ks| - 1];
      if key in b.entries && |b.entries[key].list70| > 0 && |b.entries[key].list80| > 0 {
        ScoreListsScored(prev, b.entries[key].list70, b.entries[key].list80, p);
      }
    }
  }

  /** A pair of the list whose score clears the floor ends up in the map. */
  lemma {:induction false} ScoreAgainstHas(cm: Cands, r70: Row, l80: seq<Row>, p: Policy, r80: Row)
    requires r80 in l80 && Clears(p, r70, r80)
    ensures PairId(r70, r80) in ScoreAgainst(cm, r70, l80, p).entries
    decreases |l80|
  {
    var init := l80[..|l80| - 1];
    assert l80 == init + [l80[|l80| - 1]];
    if r80 in init {
      ScoreAgainstHas(cm, r70, init, p, r80);
    }
  }

  /** A pair of the two lists whose score clears the floor ends up in the map. */
  lemma {:induction false} ScoreListsHas(cm: Cands, l70: seq<Row>, l80: seq<Row>, p: Policy, r70: Row, r80: Row)
    requires r70 in l70 && r80 in l80 && Clears(p, r70, r80)
    ensures PairId(r70, r80) in ScoreLists(cm, l70, l80, p).entries
    decreases |l70|
  {
    var init := l70[..|l70| - 1];
    assert l70 == init + [l70[|l70| - 1]];
    if r70 in init {
      ScoreListsHas(cm, init, l80, p, r70, r80);
    } else {
      ScoreAgainstHas(ScoreLists(cm, init, l80, p), r70, l80, p, r80);
    }
  }

  /** A pair of a block named by `ks` whose score clears the floor ends up in the map. */
  lemma {:induction false} ScoreBlocksHas(cm: Cands, b: Blocks, ks: seq<string>, p: Policy, key: string, r70: Row, r80: Row)
    requires key in ks && key in b.entries && r70 in b.entries[key].list70 && r80 in b.entries[key].list80 && Clears(p, r70, r80)
    ensures PairId(r70, r80) in ScoreBlocks(cm, b, ks, p).entries
    decreases |ks|
  {
    var init := ks[..|ks| - 1];
    assert ks == init + [ks[|ks| - 1]];
    if key in init {
      ScoreBlocksHas(cm, b, init, p, key, r70, r80);
    } else {
      ScoreListsHas(ScoreBlocks(cm, b, init, p), b.entries[key].list70, b.entries[key].list80, p, r70, r80);
    }
  }

  /** Scoring every block of a well-formed block map misses no pair that clears the floor. */
  lemma ScoreBlocksComplete(b: Blocks, p: Policy)
    ensures b.Valid() ==> Complete(ScoreBlocks(EmptyMap(), b, b.keys, p), b, p)
  {
    if b.Valid() {
      forall key, r70, r80 | key in b.entries && r70 in b.entries[key].list70 && r80 in b.entries[key].list80 && Clears(p, r70, r80)
        ensures PairId(r70, r80) in ScoreBlocks(EmptyMap(), b, b.keys, p).entries
      {
        ScoreBlocksHas(EmptyMap(), b, b.keys, p, key, r70, r80);
      }
    }
  }

  /** Every entry that the blocks named by `ks` add pairs an 1870 row and an
      1880 row of one same block. */
  lemma {:induction false} ScoreBlocksOrigin(cm: Cands, b: Blocks, ks: seq<string>, p: Policy)
    ensures var r := ScoreBlocks(cm, b, ks, p);
      forall k :: k in r.entries && k !in cm.entries ==>
        exists key :: key in b.entries && r.entries[k].r70 in b.entries[key].list70 && r.entries[k].r80 in b.entries[key].list80
  {
    if ks != [] {
      ScoreBlocksOrigin(cm, b, ks[..|ks| - 1], p);
    }
  }

  /** Every candidate that scoring keeps pairs an 1870 row and an 1880 row of
      one same block. */
  lemma ScoreAllOrigin(b: Blocks, p: Policy)
    ensures var r := ScoreAll(b, p);
      forall k :: k in r.entries ==>
        exists key :: key in b.entries && r.entries[k].r70 in b.entries[key].list70 && r.entries[k].r80 in b.entries[key].list80
  {
    ScoreBlocksOrigin(EmptyMap(), b, b.keys, p);
  }

  /** The innermost loop of `startScoring`: one 1870 row against an 1880 list. */
  method ScoreRowAgainst(cm0: Cands, r70: Row, l80: seq<Row>, p: Policy) returns (cm: Cands)
    ensures cm == ScoreAgainst(cm0, r70, l80, p)
  {
    cm := cm0;
    var y := 0;
    while y < |l80|
      invariant 0 <= y <= |l80|
      invariant cm == ScoreAgainst(cm0, r70, l80[..y], p)
    {
      var r80 := l80[y];
      var pid := PairId(r70, r80);
      if pid !in cm.entries {
        var res := p.scorer(r70, r80);
        if res.score >= p.floor && p.tierOf(res.score) > 0 {
          cm := cm.Set(pid, Candidate(r70, r80, res.score, res.details, p.tierOf(res.score)));
        }
      }
      assert l80[..y + 1][..y] == l80[..y];
      y := y + 1;
    }
    assert l80[..y] == l80;
  }

  /** The two inner loops of `startScoring` over one block's lists. */
  method ScoreListPairs(cm0: Cands, l70: seq<Row>, l80: seq<Row>, p: Policy) returns (cm: Cands)
    ensures cm == ScoreLists(cm0, l70, l80, p)
  {
    cm := cm0;
    var x := 0;
    while x < |l70|
      invariant 0 <= x <= |l70|
      invariant cm == ScoreLists(cm0, l70[..x], l80, p)
    {
      cm := ScoreRowAgainst(cm, l70[x], l80, p);
      assert l70[..x + 1][..x] == l70[..x];
      x := x + 1;
    }
    assert l70[..x] == l70;
  }

  /** One block of the loop over the blocks: skipped when a side is empty. */
  method ScoreOneBlock(cm0: Cands, blk: Block, p: Policy) returns (cm: Cands)
    ensures cm == ScoreBlock(cm0, blk, p)
  {
    cm := cm0;
    if |blk.list70| > 0 && |blk.list80| > 0 {
      cm := ScoreListPairs(cm, blk.list70, blk.list80, p);
    }
  }

  /** One turn of the loop over the blocks: the block of the `i`-th key. */
  method ScoreKeyStep(cm0: Cands, b: Blocks, i: nat, p: Policy) returns (cm: Cands)
    requires b.Valid() && i < |b.keys|
    requires cm0 == ScoreBlocks(EmptyMap(), b, b.keys[..i], p)
    ensures cm == ScoreBlocks(EmptyMap(), b, b.keys[..i + 1], p)
  {
    ScoreBlocksStep(b, i, p);
    cm := ScoreOneBlock(cm0, b.entries[b.keys[i]], p);
  }

  lemma ScoreBlocksStep(b: Blocks, i: nat, p: Policy)
    requires b.Valid() && i < |b.keys|
    ensures ScoreBlocks(EmptyMap(), b, b.keys[..i + 1], p)
      == ScoreBlock(ScoreBlocks(EmptyMap(), b, b.keys[..i], p), b.entries[b.keys[i]], p)
  {
    assert b.keys[i] in b.entries;
    assert b.keys[..i + 1][..i] == b.keys[..i];
  }

  /** The nested loops of `startScoring` / step 2 of `runMatching`, over
      the blocks in insertion order. */
  method ScoreCandidates(b: Blocks, p: Policy) returns (cm: Cands)
    requires b.Valid()
    ensures cm == ScoreAll(b, p)
  {
    cm := EmptyMap();
    var i := 0;
    while i < |b.keys|
      invariant 0 <= i <= |b.keys|
      invariant cm == ScoreBlocks(EmptyMap(), b, b.keys[..i], p)
    {
      cm := ScoreKeyStep(cm, b, i, p);
      i := i + 1;
    }
    assert b.keys[..i] == b.keys;
  }
}
