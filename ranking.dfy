/** Ranking of scored candidates, shared by `app.js` and
    `resources/matcher_logic.js`: the stable descending sort
    `candidates.sort((a, b) => b.score - a.score)`, the greedy one-to-one
    walk over the `used70` / `used80` sets, and the split into tiers. */
module Ranking {
  import opened Census

  ghost predicate NonIncreasing(s: seq<Candidate>) {
    forall i, j :: 0 <= i < j < |s| ==> s[i].score >= s[j].score
  }

  /** Every score in `s` is at most `v`. */
  ghost predicate AtMost(s: seq<Candidate>, v: int) {
    forall i :: 0 <= i < |s| ==> s[i].score <= v
  }

  lemma ConsNonIncreasing(c: Candidate, s: seq<Candidate>)
    requires NonIncreasing(s) && AtMost(s, c.score)
    ensures NonIncreasing([c] + s)
  {
    var r := [c] + s;
    forall i, j | 0 <= i < j < |r| ensures r[i].score >= r[j].score {
      assert r[j] == s[j - 1];
      if i > 0 { assert r[i] == s[i - 1]; }
    }
  }

  /** The candidates with score `v`, in their order in `s`. */
  function WithScore(s: seq<Candidate>, v: int): seq<Candidate> {
    if s == [] then []
    else (if s[0].score == v then [s[0]] else []) + WithScore(s[1..], v)
  }

  /** Puts `c` in front of the first candidate whose score is not higher. */
  function Insert(c: Candidate, s: seq<Candidate>): (r: seq<Candidate>)
    ensures |r| == |s| + 1
  {
    if s == [] || s[0].score <= c.score then [c] + s else [s[0]] + Insert(c, s[1..])
  }

  lemma {:induction false} InsertBounded(c: Candidate, s: seq<Candidate>, v: int)
    requires c.score <= v && AtMost(s, v)
    ensures AtMost(Insert(c, s), v)
    decreases |s|
  {
    if !(s == [] || s[0].score <= c.score) {
      InsertBounded(c, s[1..], v);
      var t := Insert(c, s[1..]);
      forall i | 0 <= i < |t| + 1 ensures Insert(c, s)[i].score <= v {
        if i > 0 { assert Insert(c, s)[i] == t[i - 1]; }
      }
    }
  }

  lemma {:induction false} InsertSorted(c: Candidate, s: seq<Candidate>)
    requires NonIncreasing(s)
    ensures NonIncreasing(Insert(c, s))
    decreases |s|
  {
    if s == [] || s[0].score <= c.score {
      ConsNonIncreasing(c, s);
    } else {
      InsertSorted(c, s[1..]);
      InsertBounded(c, s[1..], s[0].score);
      ConsNonIncreasing(s[0], Insert(c, s[1..]));
    }
  }

  lemma {:induction false} InsertPermutes(c: Candidate, s: seq<Candidate>)
    ensures multiset(Insert(c, s)) == multiset(s) + multiset{c}
    decreases |s|
  {
    if !(s == [] || s[0].score <= c.score) {
      InsertPermutes(c, s[1..]);
      assert s == [s[0]] + s[1..];
    }
  }

  lemma {:induction false} InsertStable(c: Candidate, s: seq<Candidate>, v: int)
    ensures WithScore(Insert(c, s), v) == (if c.score == v then [c] else []) + WithScore(s, v)
    decreases |s|
  {
    if s == [] || s[0].score <= c.score {
      WithScoreCons(c, s, v);
    } else {
      var w := WithScore(s[1..], v);
      InsertStable(c, s[1..], v);
      WithScoreCons(s[0], Insert(c, s[1..]), v);
      WithScoreCons(s[0], s[1..], v);
      assert s == [s[0]] + s[1..];
      if s[0].score == v {
        assert WithScore(Insert(c, s), v) == [s[0]] + w;
      } else if c.score == v {
        assert WithScore(Insert(c, s), v) == [c] + w;
      } else {
        assert WithScore(Insert(c, s), v) == w;
      }
    }
  }

  lemma WithScoreCons(x: Candidate, t: seq<Candidate>, v: int)
    ensures WithScore([x] + t, v) == (if x.score == v then [x] else []) + WithScore(t, v)
  {
    assert ([x] + t)[1..] == t;
  }

  /** `candidates.sort((a, b) => b.score - a.score)` (a stable sort). */
  function SortByScore(s: seq<Candidate>): (r: seq<Candidate>)
    ensures |r| == |s|
  {
    if s == [] then [] else Insert(s[0], SortByScore(s[1..]))
  }

  /** The sort returns a permutation of its input whose scores never
      increase, and candidates of equal score keep their input order. */
  lemma {:induction false} SortByScoreCorrect(s: seq<Candidate>)
    ensures multiset(SortByScore(s)) == multiset(s)
    ensures NonIncreasing(SortByScore(s))
    ensures forall v :: WithScore(SortByScore(s), v) == WithScore(s, v)
    decreases |s|
  {
    if s != [] {
      SortByScoreCorrect(s[1..]);
      InsertPermutes(s[0], SortByScore(s[1..]));
      InsertSorted(s[0], SortByScore(s[1..]));
      assert s == [s[0]] + s[1..];
      forall v ensures WithScore(SortByScore(s), v) == WithScore(s, v) {
        InsertStable(s[0], SortByScore(s[1..]), v);
      }
    }
  }

  /** When every score is the same, the sort changes nothing: every
      comparison is a tie and the sort is stable. */
  lemma {:induction false} SortTiesKeepOrder(s: seq<Candidate>, v: int)
    requires forall i :: 0 <= i < |s| ==> s[i].score == v
    ensures SortByScore(s) == s
    decreases |s|
  {
    if s != [] {
      SortTiesKeepOrder(s[1..], v);
      assert s == [s[0]] + s[1..];
    }
  }

  function Lines70(s: seq<Candidate>): set<string> {
    set i | 0 <= i < |s| :: s[i].r70.line
  }

  function Lines80(s: seq<Candidate>): set<string> {
    set i | 0 <= i < |s| :: s[i].r80.line
  }

  lemma LinesCons(c: Candidate, t: seq<Candidate>)
    ensures Lines70([c] + t) == {c.r70.line} + Lines70(t)
    ensures Lines80([c] + t) == {c.r80.line} + Lines80(t)
  {
    var r := [c] + t;
    forall x | x in Lines70(r) ensures x in {c.r70.line} + Lines70(t) {
      var i :| 0 <= i < |r| && r[i].r70.line == x;
      if i > 0 { assert r[i] == t[i - 1]; }
    }
    forall x | x in Lines70(t) ensures x in Lines70(r) {
      var i :| 0 <= i < |t| && t[i].r70.line == x;
      assert r[i + 1] == t[i];
    }
    forall x | x in Lines80(r) ensures x in {c.r80.line} + Lines80(t) {
      var i :| 0 <= i < |r| && r[i].r80.line == x;
      if i > 0 { assert r[i] == t[i - 1]; }
    }
    forall x | x in Lines80(t) ensures x in Lines80(r) {
      var i :| 0 <= i < |t| && t[i].r80.line == x;
      assert r[i + 1] == t[i];
    }
    assert r[0] == c;
  }

  /** No 1870 line and no 1880 line is used by two pairs of `s`. */
  ghost predicate OneToOne(s: seq<Candidate>) {
    forall i, j :: 0 <= i < j < |s| ==> s[i].r70.line != s[j].r70.line && s[i].r80.line != s[j].r80.line
  }

  /** The greedy walk: a candidate is accepted unless one of its lines was
      used already, and accepting it uses both lines. */
  function Greedy(s: seq<Candidate>, used70: set<string>, used80: set<string>): (r: seq<Candidate>)
    ensures |r| <= |s|
  {
    if s == [] then []
    else if s[0].r70.line in used70 || s[0].r80.line in used80 then Greedy(s[1..], used70, used80)
    else [s[0]] + Greedy(s[1..], used70 + {s[0].r70.line}, used80 + {s[0].r80.line})
  }

  /** Accepted pairs avoid every line used before the walk. */
  lemma {:induction false} GreedyAvoids(s: seq<Candidate>, used70: set<string>, used80: set<string>)
    ensures forall i :: 0 <= i < |Greedy(s, used70, used80)| ==>
      Greedy(s, used70, used80)[i].r70.line !in used70 && Greedy(s, used70, used80)[i].r80.line !in used80
    decreases |s|
  {
    if s != [] {
      var c := s[0];
      if c.r70.line in used70 || c.r80.line in used80 {
        GreedyAvoids(s[1..], used70, used80);
      } else {
        var u70, u80 := used70 + {c.r70.line}, used80 + {c.r80.line};
        GreedyAvoids(s[1..], u70, u80);
        var t := Greedy(s[1..], u70, u80);
        var r := [c] + t;
        forall i | 0 <= i < |r| ensures r[i].r70.line !in used70 && r[i].r80.line !in used80 {
          if i > 0 { assert r[i] == t[i - 1]; }
        }
      }
    }
  }

  /** A pair in front of one-to-one pairs sharing none of its lines. */
  lemma ConsOneToOne(c: Candidate, t: seq<Candidate>)
    requires OneToOne(t)
    requires forall i :: 0 <= i < |t| ==> t[i].r70.line != c.r70.line && t[i].r80.line != c.r80.line
    ensures OneToOne([c] + t)
  {
    var r := [c] + t;
    forall i, j | 0 <= i < j < |r|
      ensures r[i].r70.line != r[j].r70.line && r[i].r80.line != r[j].r80.line
    {
      assert r[j] == t[j - 1];
      if i > 0 { assert r[i] == t[i - 1]; }
    }
  }

  /** Accepted pairs are one-to-one and avoid every line used before the walk. */
  lemma {:induction false} GreedyOneToOne(s: seq<Candidate>, used70: set<string>, used80: set<string>)
    ensures var r := Greedy(s, used70, used80);
      && OneToOne(r)
      && (forall i :: 0 <= i < |r| ==> r[i].r70.line !in used70 && r[i].r80.line !in used80)
    decreases |s|
  {
    GreedyAvoids(s, used70, used80);
    if s != [] {
      var c := s[0];
      if c.r70.line in used70 || c.r80.line in used80 {
        GreedyOneToOne(s[1..], used70, used80);
      } else {
        var u70, u80 := used70 + {c.r70.line}, used80 + {c.r80.line};
        GreedyOneToOne(s[1..], u70, u80);
        ConsOneToOne(c, Greedy(s[1..], u70, u80));
      }
    }
  }

  /** Every accepted pair is a candidate of the input. */
  lemma {:induction false} GreedyFromInput(s: seq<Candidate>, used70: set<string>, used80: set<string>)
    ensures forall i :: 0 <= i < |Greedy(s, used70, used80)| ==> Greedy(s, used70, used80)[i] in s
    decreases |s|
  {
    if s != [] {
      var c := s[0];
      if c.r70.line in used70 || c.r80.line in used80 {
        GreedyFromInput(s[1..], used70, used80);
      } else {
        var u70, u80 := used70 + {c.r70.line}, used80 + {c.r80.line};
        GreedyFromInput(s[1..], u70, u80);
        var t := Greedy(s[1..], u70, u80);
        forall i | 0 <= i < |t| + 1 ensures ([c] + t)[i] in s {
          if i > 0 { assert ([c] + t)[i] == t[i - 1]; }
        }
      }
    }
  }

  lemma {:induction false} GreedyBounded(s: seq<Candidate>, used70: set<string>, used80: set<string>, v: int)
    requires AtMost(s, v)
    ensures AtMost(Greedy(s, used70, used80), v)
    decreases |s|
  {
    if s != [] {
      var c := s[0];
      if c.r70.line in used70 || c.r80.line in used80 {
        GreedyBounded(s[1..], used70, used80, v);
      } else {
        var u70, u80 := used70 + {c.r70.line}, used80 + {c.r80.line};
        GreedyBounded(s[1..], u70, u80, v);
        var t := Greedy(s[1..], u70, u80);
        forall i | 0 <= i < |t| + 1 ensures ([c] + t)[i].score <= v {
          if i > 0 { assert ([c] + t)[i] == t[i - 1]; }
        }
      }
    }
  }

  /** A sorted input gives a sorted result. */
  lemma {:induction false} GreedySorted(s: seq<Candidate>, used70: set<string>, used80: set<string>)
    requires NonIncreasing(s)
    ensures NonIncreasing(Greedy(s, used70, used80))
    decreases |s|
  {
    if s != [] {
      var c := s[0];
      if c.r70.line in used70 || c.r80.line in used80 {
        GreedySorted(s[1..], used70, used80);
      } else {
        var u70, u80 := used70 + {c.r70.line}, used80 + {c.r80.line};
        GreedySorted(s[1..], u70, u80);
        GreedyBounded(s[1..], u70, u80, c.score);
        ConsNonIncreasing(c, Greedy(s[1..], u70, u80));
      }
    }
  }

  /** The walk is greedy: every candidate it rejects shares a line with an
      accepted pair or with a line used before the walk. */
  lemma {:induction false} GreedyMaximal(s: seq<Candidate>, used70: set<string>, used80: set<string>)
    ensures var r := Greedy(s, used70, used80);
      forall i :: 0 <= i < |s| ==>
        s[i] in r || s[i].r70.line in used70 + Lines70(r) || s[i].r80.line in used80 + Lines80(r)
    decreases |s|
  {
    if s != [] {
      var c := s[0];
      var r := Greedy(s, used70, used80);
      if c.r70.line in used70 || c.r80.line in used80 {
        GreedyMaximal(s[1..], used70, used80);
        forall i | 0 < i < |s|
          ensures s[i] in r || s[i].r70.line in used70 + Lines70(r) || s[i].r80.line in used80 + Lines80(r)
        {
          assert s[i] == s[1..][i - 1];
        }
      } else {
        var u70, u80 := used70 + {c.r70.line}, used80 + {c.r80.line};
        GreedyMaximal(s[1..], u70, u80);
        var t := Greedy(s[1..], u70, u80);
        LinesCons(c, t);
        assert r == [c] + t;
        forall i | 0 < i < |s|
          ensures s[i] in r || s[i].r70.line in used70 + Lines70(r) || s[i].r80.line in used80 + Lines80(r)
        {
          assert s[i] == s[1..][i - 1];
        }
      }
    }
  }

  /** The candidates of tier `t`, in their order in `s` (`matches.filter(m => m.tier === t)`). */
  function WithTier(s: seq<Candidate>, t: int): (r: seq<Candidate>)
    ensures forall i :: 0 <= i < |r| ==> r[i].tier == t
  {
    if s == [] then [] else (if s[0].tier == t then [s[0]] else []) + WithTier(s[1..], t)
  }

  /** A tier list holds exactly the candidates of that tier, each taken from `s`. */
  lemma {:induction false} WithTierMembers(s: seq<Candidate>, t: int)
    ensures forall i :: 0 <= i < |WithTier(s, t)| ==> WithTier(s, t)[i] in s
    ensures forall i :: 0 <= i < |s| && s[i].tier == t ==> s[i] in WithTier(s, t)
    decreases |s|
  {
    if s != [] {
      WithTierMembers(s[1..], t);
      var rest := WithTier(s[1..], t);
      var r := WithTier(s, t);
      forall i | 0 <= i < |r| ensures r[i] in s {
        if s[0].tier == t && i > 0 { assert r[i] == rest[i - 1]; }
        if s[0].tier != t { assert r[i] == rest[i]; }
      }
      forall i | 0 < i < |s| && s[i].tier == t ensures s[i] in r {
        assert s[i] == s[1..][i - 1];
      }
    }
  }

  lemma {:induction false} WithTierBounded(s: seq<Candidate>, t: int, v: int)
    requires AtMost(s, v)
    ensures AtMost(WithTier(s, t), v)
    decreases |s|
  {
    if s != [] {
      WithTierBounded(s[1..], t, v);
      var rest := WithTier(s[1..], t);
      forall i | 0 <= i < |WithTier(s, t)| ensures WithTier(s, t)[i].score <= v {
        if s[0].tier == t && i > 0 { assert WithTier(s, t)[i] == rest[i - 1]; }
        if s[0].tier != t { assert WithTier(s, t)[i] == rest[i]; }
      }
    }
  }

  /** Filtering keeps the order, so a sorted list gives sorted tier lists. */
  lemma {:induction false} WithTierSorted(s: seq<Candidate>, t: int)
    requires NonIncreasing(s)
    ensures NonIncreasing(WithTier(s, t))
    decreases |s|
  {
    if s != [] {
      WithTierSorted(s[1..], t);
      if s[0].tier == t {
        WithTierBounded(s[1..], t, s[0].score);
        ConsNonIncreasing(s[0], WithTier(s[1..], t));
      }
    }
  }

  /** When every tier is 1, 2 or 3, the three tier lists split `s`: together
      they hold exactly its candidates. */
  lemma {:induction false} TiersPartition(s: seq<Candidate>)
    requires forall i :: 0 <= i < |s| ==> 1 <= s[i].tier <= 3
    ensures multiset(WithTier(s, 1)) + multiset(WithTier(s, 2)) + multiset(WithTier(s, 3)) == multiset(s)
    ensures |WithTier(s, 1)| + |WithTier(s, 2)| + |WithTier(s, 3)| == |s|
    decreases |s|
  {
    if s != [] {
      TiersPartition(s[1..]);
      var c := s[0];
      assert multiset(s) == multiset{c} + multiset(s[1..]) by { assert s == [c] + s[1..]; }
      WithTierCons(s, 1);
      WithTierCons(s, 2);
      WithTierCons(s, 3);
    }
  }

  /** One step of filtering the tiers. */
  lemma WithTierCons(s: seq<Candidate>, t: int)
    requires s != []
    ensures multiset(WithTier(s, t)) == (if s[0].tier == t then multiset{s[0]} else multiset{}) + multiset(WithTier(s[1..], t))
    ensures |WithTier(s, t)| == (if s[0].tier == t then 1 else 0) + |WithTier(s[1..], t)|
  {
  }

  /** The tier lists of a sorted list with tiers 1 to 3 partition it, and
      each holds exactly the candidates of its tier, in the order of the list. */
  lemma TierSplit(all: seq<Candidate>)
    requires NonIncreasing(all)
    requires forall i :: 0 <= i < |all| ==> 1 <= all[i].tier <= 3
    ensures |WithTier(all, 1)| + |WithTier(all, 2)| + |WithTier(all, 3)| == |all|
    ensures forall t :: NonIncreasing(WithTier(all, t)) && (forall c :: c in WithTier(all, t) <==> c in all && c.tier == t)
  {
    TiersPartition(all);
    forall t ensures NonIncreasing(WithTier(all, t)) && (forall c :: c in WithTier(all, t) <==> c in all && c.tier == t) {
      WithTierSorted(all, t);
      WithTierMembers(all, t);
    }
  }

  /** Filtering by the one tier every candidate has keeps them all, and
      filtering by any other tier keeps none. */
  lemma {:induction false} WithTierUniform(s: seq<Candidate>, t: int, u: int)
    requires forall i :: 0 <= i < |s| ==> s[i].tier == t
    ensures WithTier(s, t) == s
    ensures u != t ==> WithTier(s, u) == []
    decreases |s|
  {
    if s != [] {
      WithTierUniform(s[1..], t, u);
      assert s == [s[0]] + s[1..];
    }
  }

  /** Filtering distributes over appending one candidate (what a loop that
      pushes the tier-`t` candidates one by one relies on). */
  lemma {:induction false} WithTierAppend(s: seq<Candidate>, c: Candidate, t: int)
    ensures WithTier(s + [c], t) == WithTier(s, t) + (if c.tier == t then [c] else [])
    decreases |s|
  {
    if s == [] {
      assert [c][1..] == [];
    } else {
      assert (s + [c])[1..] == s[1..] + [c];
      WithTierAppend(s[1..], c, t);
    }
  }

  /** A walk that has accepted `acc` so far goes on by accepting `s[i]`
      when neither of its rows is taken. */
  lemma GreedyTake(s: seq<Candidate>, i: nat, used70: set<string>, used80: set<string>, acc: seq<Candidate>)
    requires i < |s| && s[i].r70.line !in used70 && s[i].r80.line !in used80
    ensures acc + Greedy(s[i..], used70, used80)
         == (acc + [s[i]]) + Greedy(s[i + 1..], used70 + {s[i].r70.line}, used80 + {s[i].r80.line})
  {
    GreedyStep(s, i, used70, used80);
    var rest := Greedy(s[i + 1..], used70 + {s[i].r70.line}, used80 + {s[i].r80.line});
    assert acc + ([s[i]] + rest) == (acc + [s[i]]) + rest;
  }

  /** A walk goes on past `s[i]` when one of its rows is taken. */
  lemma GreedySkip(s: seq<Candidate>, i: nat, used70: set<string>, used80: set<string>)
    requires i < |s| && (s[i].r70.line in used70 || s[i].r80.line in used80)
    ensures Greedy(s[i..], used70, used80) == Greedy(s[i + 1..], used70, used80)
  {
    GreedyStep(s, i, used70, used80);
  }

  /** One step of the greedy walk over `s[i..]`. */
  lemma GreedyStep(s: seq<Candidate>, i: nat, used70: set<string>, used80: set<string>)
    requires i < |s|
    ensures Greedy(s[i..], used70, used80)
         == if s[i].r70.line in used70 || s[i].r80.line in used80 then Greedy(s[i + 1..], used70, used80)
            else [s[i]] + Greedy(s[i + 1..], used70 + {s[i].r70.line}, used80 + {s[i].r80.line})
  {
    assert s[i..][1..] == s[i + 1..];
  }
}
