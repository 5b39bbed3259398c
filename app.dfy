/** The browser application object `App` of `app.js`: it holds the two
    censuses, the block map, the candidate list and the three tier lists,
    and runs the pipeline stage by stage (blocking, scoring, resolution,
    optional household boosting, finalisation), plus the ego-id bookkeeping
    of loading and exporting. */
module AppLogic {
  import opened Census
  import opened Ranking
  import opened Households
  import Blocking
  import opened AppScore
  import opened AppBoost

  /** The largest `parseInt(egoid)` of the verified rows, 0 when there is
      none above 0 (`maxId` in `init`). */
  function MaxEgoId(ver: seq<Row>): (m: nat)
    ensures forall i :: 0 <= i < |ver| ==> ver[i].egoidNum <= m
  {
    if ver == [] then 0
    else
      var m := MaxEgoId(ver[..|ver| - 1]);
      var id := ver[|ver| - 1].egoidNum;
      if id > m then id else m
  }

  /** `maxId` bounds every verified ego id and is either 0 or one of them. */
  lemma {:induction false} MaxEgoIdIsMax(ver: seq<Row>)
    ensures forall i :: 0 <= i < |ver| ==> ver[i].egoidNum <= MaxEgoId(ver)
    ensures MaxEgoId(ver) == 0 || exists i :: 0 <= i < |ver| && ver[i].egoidNum == MaxEgoId(ver)
    decreases |ver|
  {
    if ver != [] {
      var init := ver[..|ver| - 1];
      MaxEgoIdIsMax(init);
      assert forall i :: 0 <= i < |init| ==> ver[i] == init[i];
    }
  }

  /** One row of the exported changes file: an 1870 line and its new ego id. */
  datatype Change = Change(theLine: string, theChange: int)

  /** The candidates scored from the blocks of the two censuses. */
  function Scored(d70: seq<Row>, d80: seq<Row>): (cs: seq<Candidate>)
    ensures Blocking.AllQualify(cs, Policy())
  {
    var cm := Blocking.ScoreAll(Blocking.BuildBlocks(BlockKeys, d70, d80), Policy());
    Blocking.ValuesQualify(cm, Policy());
    cm.Values()
  }

  /** The tier-1 anchors of resolution. */
  function Anchors(sorted: seq<Candidate>): (anchors: seq<Candidate>)
    ensures forall i :: 0 <= i < |anchors| ==> anchors[i].tier == 1 && anchors[i] in sorted
  {
    GreedyFromInput(sorted, {}, {});
    WithTierMembers(Greedy(sorted, {}, {}), 1);
    WithTier(Greedy(sorted, {}, {}), 1)
  }

  /** The accepted matches of the whole pipeline, with or without boosting. */
  function Final(d70: seq<Row>, d80: seq<Row>, boost: bool, jw: Similarity): (f: seq<Candidate>)
    ensures OneToOne(f)
  {
    var sorted := SortByScore(Scored(d70, d80));
    var pool := if boost then BoostAll(sorted, Anchors(sorted), d70, d80, jw).cm.Values() else sorted;
    GreedyOneToOne(SortByScore(pool), {}, {});
    Greedy(SortByScore(pool), {}, {})
  }

  lemma SortQualifies(s: seq<Candidate>)
    requires Blocking.AllQualify(s, Policy())
    ensures Blocking.AllQualify(SortByScore(s), Policy())
  {
    SortByScoreCorrect(s);
    forall i | 0 <= i < |SortByScore(s)| ensures Blocking.Qualifies(SortByScore(s)[i], Policy()) {
      var c := SortByScore(s)[i];
      assert c in multiset(SortByScore(s));
      assert c in multiset(s);
      var j :| 0 <= j < |s| && s[j] == c;
    }
  }

  /** Every accepted pair of a greedy walk over qualifying candidates qualifies. */
  lemma GreedyQualifies(s: seq<Candidate>)
    requires Blocking.AllQualify(s, Policy())
    ensures Blocking.AllQualify(Greedy(s, {}, {}), Policy())
  {
    var f := Greedy(s, {}, {});
    GreedyFromInput(s, {}, {});
    forall i | 0 <= i < |f| ensures Blocking.Qualifies(f[i], Policy()) {
      var j :| 0 <= j < |s| && s[j] == f[i];
    }
  }

  /** The pool handed to finalisation qualifies, boosted or not. */
  lemma PoolQualifies(d70: seq<Row>, d80: seq<Row>, boost: bool, jw: Similarity)
    ensures var sorted := SortByScore(Scored(d70, d80));
      Blocking.AllQualify(if boost then BoostAll(sorted, Anchors(sorted), d70, d80, jw).cm.Values() else sorted, Policy())
  {
    var scored := Scored(d70, d80);
    Blocking.ValuesQualify(Blocking.ScoreAll(Blocking.BuildBlocks(BlockKeys, d70, d80), Policy()), Policy());
    var sorted := SortByScore(scored);
    SortQualifies(scored);
    if boost {
      Blocking.ValuesQualify(BoostAll(sorted, Anchors(sorted), d70, d80, jw).cm, Policy());
    }
  }

  /** The matches of the whole pipeline are one-to-one, in descending score
      order, each scores at least 60 and carries the tier of its score, and
      the three tier lists together hold every one of them. */
  lemma FinalCorrect(d70: seq<Row>, d80: seq<Row>, boost: bool, jw: Similarity)
    ensures OneToOne(Final(d70, d80, boost, jw))
    ensures NonIncreasing(Final(d70, d80, boost, jw))
    ensures Blocking.AllQualify(Final(d70, d80, boost, jw), Policy())
    ensures var f := Final(d70, d80, boost, jw); |WithTier(f, 1)| + |WithTier(f, 2)| + |WithTier(f, 3)| == |f|
  {
    var sorted := SortByScore(Scored(d70, d80));
    var pool := if boost then BoostAll(sorted, Anchors(sorted), d70, d80, jw).cm.Values() else sorted;
    PoolQualifies(d70, d80, boost, jw);
    SortQualifies(pool);
    var ordered := SortByScore(pool);
    SortByScoreCorrect(pool);
    GreedyOneToOne(ordered, {}, {});
    GreedySorted(ordered, {}, {});
    GreedyQualifies(ordered);
    var f := Greedy(ordered, {}, {});
    assert f == Final(d70, d80, boost, jw);
    TiersPartition(f);
  }

  /** The greedy walk of `startResolution` over sorted candidates: the
      accepted pairs of tier 1, in walk order. */
  method ResolveAnchors(walk: seq<Candidate>) returns (anchors: seq<Candidate>)
    ensures anchors == Anchors(walk)
  {
    var used70: set<string> := {};
    var used80: set<string> := {};
    anchors := [];
    ghost var accepted: seq<Candidate> := [];
    var i := 0;
    while i < |walk|
      invariant 0 <= i <= |walk|
      invariant accepted + Greedy(walk[i..], used70, used80) == Greedy(walk, {}, {})
      invariant anchors == WithTier(accepted, 1)
    {
      var cand := walk[i];
      if cand.r70.line !in used70 && cand.r80.line !in used80 {
        GreedyTake(walk, i, used70, used80, accepted);
        used70 := used70 + {cand.r70.line};
        used80 := used80 + {cand.r80.line};
        if cand.tier == 1 {
          anchors := anchors + [cand];
        }
        WithTierAppend(accepted, cand, 1);
        accepted := accepted + [cand];
      } else {
        GreedySkip(walk, i, used70, used80);
      }
      i := i + 1;
    }
    assert walk[i..] == [];
    assert accepted == Greedy(walk, {}, {});
  }

  /** The greedy walk of `finalizeResults` over sorted candidates: each
      accepted pair is filed under its tier and counted. */
  method ResolveTiers(walk: seq<Candidate>) returns (t1: seq<Candidate>, t2: seq<Candidate>, t3: seq<Candidate>, count: nat)
    ensures t1 == WithTier(Greedy(walk, {}, {}), 1)
    ensures t2 == WithTier(Greedy(walk, {}, {}), 2)
    ensures t3 == WithTier(Greedy(walk, {}, {}), 3)
    ensures count == |Greedy(walk, {}, {})|
  {
    var used70: set<string> := {};
    var used80: set<string> := {};
    t1, t2, t3 := [], [], [];
    count := 0;
    ghost var accepted: seq<Candidate> := [];
    var i := 0;
    while i < |walk|
      invariant 0 <= i <= |walk|
      invariant accepted + Greedy(walk[i..], used70, used80) == Greedy(walk, {}, {})
      invariant t1 == WithTier(accepted, 1) && t2 == WithTier(accepted, 2) && t3 == WithTier(accepted, 3)
      invariant count == |accepted|
    {
      var cand := walk[i];
      if cand.r70.line !in used70 && cand.r80.line !in used80 {
        GreedyTake(walk, i, used70, used80, accepted);
        used70 := used70 + {cand.r70.line};
        used80 := used80 + {cand.r80.line};
        if cand.tier == 1 {
          t1 := t1 + [cand];
        } else if cand.tier == 2 {
          t2 := t2 + [cand];
        } else if cand.tier == 3 {
          t3 := t3 + [cand];
        }
        count := count + 1;
        WithTierAppend(accepted, cand, 1);
        WithTierAppend(accepted, cand, 2);
        WithTierAppend(accepted, cand, 3);
        accepted := accepted + [cand];
      } else {
        GreedySkip(walk, i, used70, used80);
      }
      i := i + 1;
    }
    assert walk[i..] == [];
    assert accepted == Greedy(walk, {}, {});
  }

  class App {
    var data1870: seq<Row>
    var data1880: seq<Row>
    var nextEgoId: int
    var blocks: Blocking.Blocks
    var candidates: seq<Candidate>
    var tier1: seq<Candidate>
    var tier2: seq<Candidate>
    var tier3: seq<Candidate>

    ghost predicate Valid()
      reads this
    {
      blocks.Valid()
    }

    constructor ()
      ensures Valid()
      ensures data1870 == [] && data1880 == [] && nextEgoId == 1 && blocks == EmptyMap()
      ensures candidates == [] && tier1 == [] && tier2 == [] && tier3 == []
    {
      data1870, data1880, nextEgoId, blocks := [], [], 1, EmptyMap();
      candidates, tier1, tier2, tier3 := [], [], [], [];
    }

    /** The then-branch of `init` once the three files are parsed: keeps the
        censuses and sets `nextEgoId` one above the largest verified ego id. */
    method Load(d70: seq<Row>, d80: seq<Row>, verified: seq<Row>)
      requires Valid()
      modifies this
      ensures Valid()
      ensures data1870 == d70 && data1880 == d80 && nextEgoId == MaxEgoId(verified) + 1
      ensures blocks == old(blocks) && candidates == old(candidates)
      ensures tier1 == old(tier1) && tier2 == old(tier2) && tier3 == old(tier3)
    {
      data1870 := d70;
      data1880 := d80;
      var maxId := 0;
      var i := 0;
      while i < |verified|
        invariant 0 <= i <= |verified|
        invariant maxId == MaxEgoId(verified[..i])
      {
        var id := verified[i].egoidNum;
        if id > maxId {
          maxId := id;
        }
        assert verified[..i + 1][..i] == verified[..i];
        i := i + 1;
      }
      assert verified[..i] == verified;
      nextEgoId := maxId + 1;
    }

    /** `addToBlock(key, record, type)` */
    method AddToBlock(key: string, record: Row, side70: bool)
      requires Valid()
      modifies this
      ensures Valid()
      ensures blocks == Blocking.AddToBlock(old(blocks), key, record, side70)
      ensures data1870 == old(data1870) && data1880 == old(data1880) && nextEgoId == old(nextEgoId)
      ensures candidates == old(candidates) && tier1 == old(tier1) && tier2 == old(tier2) && tier3 == old(tier3)
    {
      var b := if key in blocks.entries then blocks.entries[key] else Blocking.Block([], []);
      if side70 {
        b := b.(list70 := b.list70 + [record]);
      } else {
        b := b.(list80 := b.list80 + [record]);
      }
      blocks := blocks.Set(key, b);
    }

    /** `keys.forEach(k => this.addToBlock(k, row, type))` */
    method AddKeys(keys: seq<string>, row: Row, side70: bool)
      requires Valid()
      modifies this
      ensures Valid()
      ensures blocks == Blocking.AddKeys(old(blocks), keys, row, side70)
      ensures data1870 == old(data1870) && data1880 == old(data1880) && nextEgoId == old(nextEgoId)
      ensures candidates == old(candidates) && tier1 == old(tier1) && tier2 == old(tier2) && tier3 == old(tier3)
    {
      var j := 0;
      while j < |keys|
        invariant 0 <= j <= |keys|
        invariant Valid()
        invariant blocks == Blocking.AddKeys(old(blocks), keys[..j], row, side70)
        invariant data1870 == old(data1870) && data1880 == old(data1880) && nextEgoId == old(nextEgoId)
        invariant candidates == old(candidates) && tier1 == old(tier1) && tier2 == old(tier2) && tier3 == old(tier3)
      {
        AddToBlock(keys[j], row, side70);
        assert keys[..j + 1][..j] == keys[..j];
        j := j + 1;
      }
      assert keys[..j] == keys;
    }

    /** Adds every key of every row of one census (one `forEach` of `startBlocking`). */
    method AddCensus(rows: seq<Row>, side70: bool)
      requires Valid()
      modifies this
      ensures Valid()
      ensures blocks == Blocking.AddRows(old(blocks), BlockKeys, rows, side70)
      ensures data1870 == old(data1870) && data1880 == old(data1880) && nextEgoId == old(nextEgoId)
      ensures candidates == old(candidates) && tier1 == old(tier1) && tier2 == old(tier2) && tier3 == old(tier3)
    {
      var i := 0;
      while i < |rows|
        invariant 0 <= i <= |rows|
        invariant Valid()
        invariant blocks == Blocking.AddRows(old(blocks), BlockKeys, rows[..i], side70)
        invariant data1870 == old(data1870) && data1880 == old(data1880) && nextEgoId == old(nextEgoId)
        invariant candidates == old(candidates) && tier1 == old(tier1) && tier2 == old(tier2) && tier3 == old(tier3)
      {
        AddKeys(BlockKeys(rows[i]), rows[i], side70);
        assert rows[..i + 1][..i] == rows[..i];
        i := i + 1;
      }
      assert rows[..i] == rows;
    }

    /** `startBlocking`: every 1870 row, then every 1880 row, is added to
        each of its blocks. */
    method StartBlocking()
      requires Valid()
      modifies this
      ensures Valid()
      ensures blocks == Blocking.BuildBlocks(BlockKeys, data1870, data1880)
      ensures data1870 == old(data1870) && data1880 == old(data1880) && nextEgoId == old(nextEgoId)
      ensures candidates == old(candidates) && tier1 == old(tier1) && tier2 == old(tier2) && tier3 == old(tier3)
    {
      blocks := EmptyMap();
      AddCensus(data1870, true);
      AddCensus(data1880, false);
    }

    /** `startScoring`: the candidates of all blocks, in block order. */
    method StartScoring()
      requires Valid()
      modifies this
      ensures Valid()
      ensures candidates == Blocking.ScoreAll(blocks, Policy()).Values()
      ensures data1870 == old(data1870) && data1880 == old(data1880) && nextEgoId == old(nextEgoId)
      ensures blocks == old(blocks) && tier1 == old(tier1) && tier2 == old(tier2) && tier3 == old(tier3)
    {
      var cm := Blocking.ScoreCandidates(blocks, Policy());
      candidates := cm.Values();
    }

    /** `startResolution`: sorts the candidates by descending score and
        keeps the tier-1 pairs of the greedy one-to-one walk as anchors. */
    method StartResolution()
      requires Valid()
      modifies this
      ensures Valid()
      ensures candidates == SortByScore(old(candidates))
      ensures tier1 == Anchors(candidates)
      ensures data1870 == old(data1870) && data1880 == old(data1880) && nextEgoId == old(nextEgoId)
      ensures blocks == old(blocks) && tier2 == old(tier2) && tier3 == old(tier3)
    {
      candidates := SortByScore(candidates);
      tier1 := ResolveAnchors(candidates);
    }

    /** `startHouseholdBoosting`: boosts the candidates around the tier-1
        anchors and returns the `boosted` count. The candidate list becomes
        the boosted map's values: the old candidates in their order, then the
        pairs it added. */
    method StartHouseholdBoosting(jw: Similarity) returns (boosted: nat)
      requires Valid()
      modifies this
      ensures Valid()
      ensures var r := BoostAll(old(candidates), tier1, data1870, data1880, jw);
        candidates == r.cm.Values() && boosted == r.boosted
      ensures data1870 == old(data1870) && data1880 == old(data1880) && nextEgoId == old(nextEgoId)
      ensures blocks == old(blocks) && tier1 == old(tier1) && tier2 == old(tier2) && tier3 == old(tier3)
    {
      var house70 := GroupRows(data1870, HouseKey70, false);
      var house80 := GroupRows(data1880, Family, false);
      var cm := MapCandidates(candidates);
      var st := BoostAnchorsLoop(Boost(cm, 0), tier1, house70, house80, jw);
      boosted := st.boosted;
      candidates := st.cm.Values();
    }

    /** `finalizeResults`: sorts again, walks greedily and files every
        accepted pair under its tier; returns how many were accepted. */
    method FinalizeResults() returns (count: nat)
      requires Valid()
      modifies this
      ensures Valid()
      ensures candidates == SortByScore(old(candidates))
      ensures tier1 == WithTier(Greedy(candidates, {}, {}), 1)
      ensures tier2 == WithTier(Greedy(candidates, {}, {}), 2)
      ensures tier3 == WithTier(Greedy(candidates, {}, {}), 3)
      ensures count == |Greedy(candidates, {}, {})|
      ensures data1870 == old(data1870) && data1880 == old(data1880) && nextEgoId == old(nextEgoId)
      ensures blocks == old(blocks)
    {
      candidates := SortByScore(candidates);
      var t1, t2, t3, n := ResolveTiers(candidates);
      tier1, tier2, tier3, count := t1, t2, t3, n;
    }

    /** `exportCSV`: one change per tier-1 match, numbered consecutively
        from `nextEgoId`, which ends one past the last number handed out. */
    method ExportCsv() returns (changes: seq<Change>)
      requires Valid()
      modifies this
      ensures Valid()
      ensures |changes| == |tier1|
      ensures forall i :: 0 <= i < |tier1| ==> changes[i] == Change(tier1[i].r70.line, old(nextEgoId) + i)
      ensures nextEgoId == old(nextEgoId) + |tier1|
      ensures data1870 == old(data1870) && data1880 == old(data1880) && blocks == old(blocks)
      ensures candidates == old(candidates) && tier1 == old(tier1) && tier2 == old(tier2) && tier3 == old(tier3)
    {
      changes := [];
      var i := 0;
      while i < |tier1|
        invariant 0 <= i <= |tier1|
        invariant |changes| == i && nextEgoId == old(nextEgoId) + i
        invariant forall k :: 0 <= k < i ==> changes[k] == Change(tier1[k].r70.line, old(nextEgoId) + k)
        invariant data1870 == old(data1870) && data1880 == old(data1880) && blocks == old(blocks)
        invariant candidates == old(candidates) && tier1 == old(tier1) && tier2 == old(tier2) && tier3 == old(tier3)
      {
        changes := changes + [Change(tier1[i].r70.line, nextEgoId)];
        nextEgoId := nextEgoId + 1;
        i := i + 1;
      }
    }

    /** The run button: blocking, scoring, resolution, boosting when the
        `#chk-boost` box is ticked, and finalisation. */
    method Run(boost: bool, jw: Similarity) returns (count: nat)
      requires Valid()
      modifies this
      ensures Valid()
      ensures count == |Final(data1870, data1880, boost, jw)|
      ensures tier1 == WithTier(Final(data1870, data1880, boost, jw), 1)
      ensures tier2 == WithTier(Final(data1870, data1880, boost, jw), 2)
      ensures tier3 == WithTier(Final(data1870, data1880, boost, jw), 3)
      ensures data1870 == old(data1870) && data1880 == old(data1880) && nextEgoId == old(nextEgoId)
    {
      StartBlocking();
      StartScoring();
      StartResolution();
      if boost {
        var _ := StartHouseholdBoosting(jw);
      }
      count := FinalizeResults();
    }
  }

  /** The ego ids an export hands out after loading are all above every
      verified ego id, and distinct. */
  lemma FreshEgoIds(verified: seq<Row>, i: nat, j: nat)
    ensures forall k :: 0 <= k < |verified| ==> verified[k].egoidNum < MaxEgoId(verified) + 1 + i
    ensures i != j ==> MaxEgoId(verified) + 1 + i != MaxEgoId(verified) + 1 + j
  {
    MaxEgoIdIsMax(verified);
  }
}
