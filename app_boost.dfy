/** Household context boosting (`startHouseholdBoosting` in `app.js`):
    for every tier-1 anchor, every other pair of members of the anchor's two
    households is scored (or looked up), given context bonuses and re-tiered. */
module AppBoost {
  import opened Strings
  import opened Census
  import opened Households
  import Blocking
  import opened AppScore

  /** The 1870 household key: `family_number || family || dwelling`. */
  function HouseKey70(r: Row): (k: string)
    ensures k == "" <==> r.familyNumber == "" && r.family == "" && r.dwelling == ""
    ensures r.familyNumber != "" ==> k == r.familyNumber
  {
    Or(r.familyNumber, Or(r.family, r.dwelling))
  }

  /** The 1880 household key: `family`. */
  function Family(r: Row): string {
    r.family
  }

  /** The context bonuses, one constructor per `reasons` label. */
  datatype BonusKind = HeadMatch | SpouseContext | ChildContext | ParentContext | CoResidence

  /** The bonuses, in push order, given which conditions hold; the
      co-residence bonus is always last. */
  function Bonuses(head: bool, spouse: bool, child: bool, parent: bool): (rs: seq<Check<BonusKind>>)
    ensures |rs| == 5 && rs[4] == Check(CoResidence, "Co-residence", 15, true)
  {
    var r1 := Push([], head, HeadMatch, "Head Match", 20);
    var r2 := Push(r1, spouse, SpouseContext, "Spouse/Context", 20);
    var r3 := Push(r2, child, ChildContext, "Child Context", 8);
    var r4 := Push(r3, parent, ParentContext, "Parent Context", 15);
    Push(r4, true, CoResidence, "Co-residence", 15)
  }

  /** The bonuses a pair of household members earns: a head (relation
      "self" or "head") whose full names are more than 0.9 similar, differing
      recorded genders, a child relation, a parent relation, and co-residence. */
  function BonusRules(m70: Row, m80: Row, jw: Similarity): (rs: seq<Check<BonusKind>>)
    ensures |rs| == 5 && rs[4].fired && rs[4].points == 15
  {
    var rel80 := Lower(m80.relation);
    Bonuses((rel80 == "self" || rel80 == "head") && jw(m70.fullName, m80.fullName) > 0.9,
            m70.gender != m80.gender,
            Contains(rel80, "son") || Contains(rel80, "dau") || Contains(rel80, "child"),
            Contains(rel80, "father") || Contains(rel80, "mother"))
  }

  /** The bonus is at least the co-residence 15 and at most 78, and a pair
      of differing recorded genders earns at least 35. */
  lemma BonusBounds(head: bool, spouse: bool, child: bool, parent: bool)
    ensures 15 <= Total(Bonuses(head, spouse, child, parent)) <= 78
    ensures spouse ==> Total(Bonuses(head, spouse, child, parent)) >= 35
  {
    var k := (b: BonusKind) => false;
    var e: seq<Check<BonusKind>> := [];
    var r1 := Push(e, head, HeadMatch, "Head Match", 20);
    var r2 := Push(r1, spouse, SpouseContext, "Spouse/Context", 20);
    var r3 := Push(r2, child, ChildContext, "Child Context", 8);
    var r4 := Push(r3, parent, ParentContext, "Parent Context", 15);
    PushFacts(e, head, HeadMatch, "Head Match", 20, k);
    PushFacts(r1, spouse, SpouseContext, "Spouse/Context", 20, k);
    PushFacts(r2, child, ChildContext, "Child Context", 8, k);
    PushFacts(r3, parent, ParentContext, "Parent Context", 15, k);
    PushFacts(r4, true, CoResidence, "Co-residence", 15, k);
  }

  /** Every pair of household members earns a bonus of 15 to 78 points. */
  lemma BonusRulesBounds(m70: Row, m80: Row, jw: Similarity)
    ensures 15 <= Total(BonusRules(m70, m80, jw)) <= 78
    ensures m70.gender != m80.gender ==> Total(BonusRules(m70, m80, jw)) >= 35
  {
    var rel80 := Lower(m80.relation);
    BonusBounds((rel80 == "self" || rel80 == "head") && jw(m70.fullName, m80.fullName) > 0.9,
                m70.gender != m80.gender,
                Contains(rel80, "son") || Contains(rel80, "dau") || Contains(rel80, "child"),
                Contains(rel80, "father") || Contains(rel80, "mother"));
  }

  /** `candidate.score += bonus; candidate.details += (details ? ", " : "") + reasons.join(", ")` */
  function AddBonus(c: Candidate, rs: seq<Check<BonusKind>>): (b: Candidate)
    ensures b.r70 == c.r70 && b.r80 == c.r80 && b.tier == c.tier
    ensures b.score == c.score + Total(rs)
    ensures |b.details| >= |c.details| && b.details[..|c.details|] == c.details
  {
    c.(score := c.score + Total(rs), details := c.details + (if c.details != "" then ", " else "") + Details(rs))
  }

  /** The candidate map being boosted and the `boosted` counter. */
  datatype Boost = Boost(cm: Blocking.Cands, boosted: nat)

  /** `c` became `d`: same pair, score not lower, and the tier either kept
      or set to a better (lower, non-zero) one. */
  ghost predicate Improves(c: Candidate, d: Candidate) {
    && d.r70 == c.r70 && d.r80 == c.r80 && d.score >= c.score
    && (d.tier == c.tier || (0 < d.tier && (c.tier == 0 || d.tier < c.tier)))
  }

  /** Boosting only adds candidates (each one counted in `boosted`), keeps
      the map's order, and only improves the candidates already there. */
  ghost predicate Grows(a: Boost, b: Boost) {
    && a.cm.keys <= b.cm.keys
    && |b.cm.keys| - |a.cm.keys| <= b.boosted - a.boosted
    && forall k :: k in a.cm.entries ==> k in b.cm.entries && Improves(a.cm.entries[k], b.cm.entries[k])
  }

  lemma GrowsTrans(a: Boost, b: Boost, c: Boost)
    requires Grows(a, b) && Grows(b, c)
    ensures Grows(a, c)
  {
    assert a.cm.keys <= c.cm.keys by {
      assert a.cm.keys == b.cm.keys[..|a.cm.keys|];
      assert b.cm.keys == c.cm.keys[..|b.cm.keys|];
    }
  }

  /** The tier stored under `k`, 0 when `k` is absent (a fresh pair starts untiered). */
  function TierAt(cm: Blocking.Cands, k: string): int {
    if k in cm.entries then cm.entries[k].tier else 0
  }

  /** `k` holds the same candidate, or nothing, in both maps. */
  ghost predicate Same(a: Blocking.Cands, b: Blocking.Cands, k: string) {
    && (k in a.entries <==> k in b.entries)
    && (k in a.entries ==> b.entries[k] == a.entries[k])
  }

  /** Re-tiering: the tier of the new score replaces an untiered or a worse tier. */
  function Retier(before: int, score: int): (t: int)
    ensures t == before || t == TierOf(score)
    ensures before > 0 ==> 0 < t <= before
    ensures before >= 0 && TierOf(score) > 0 ==> 0 < t <= TierOf(score)
  {
    if TierOf(score) > 0 && (before == 0 || TierOf(score) < before) then TierOf(score) else before
  }

  /** Setting one entry to an improvement of what it held, or adding it and
      counting it, grows the boost state. */
  lemma SetGrows(st: Boost, pid: string, d: Candidate, boosted: nat)
    requires pid in st.cm.entries ==> Improves(st.cm.entries[pid], d) && boosted >= st.boosted
    requires pid !in st.cm.entries ==> boosted >= st.boosted + 1
    ensures Grows(st, Boost(st.cm.Set(pid, d), boosted))
  {
  }

  /** The body of the innermost loop for one pair of household members. A
      pair not yet a candidate is scored and dropped unless it scores above
      20 (it then starts untiered); the bonus is added and the pair re-tiered
      with the 90/80/60 cut points; a better tier is recorded and counted.
      A candidate already in the map keeps its added bonus even when its
      tier does not change (it is the same object). */
  function BoostPair(st: Boost, m70: Row, m80: Row, jw: Similarity): (r: Boost)
    ensures st.cm.Valid() ==> r.cm.Valid()
    ensures Blocking.Stored(st.cm, Policy()) ==> Blocking.Stored(r.cm, Policy())
    ensures Grows(st, r)
  {
    BonusRulesBounds(m70, m80, jw);
    BoostWith(st, m70, m80, CalculateScore(m70, m80), BonusRules(m70, m80, jw))
  }

  /** `BoostPair` once the pair's score `res` and its bonuses `rs` are known. */
  function BoostWith(st: Boost, m70: Row, m80: Row, res: Scored, rs: seq<Check<BonusKind>>): (r: Boost)
    requires Total(rs) > 0
    ensures st.cm.Valid() ==> r.cm.Valid()
    ensures Blocking.Stored(st.cm, Policy()) ==> Blocking.Stored(r.cm, Policy())
    ensures Grows(st, r)
  {
    var pid := PairId(m70, m80);
    var found := pid in st.cm.entries;
    if !found && res.score <= 20 then st
    else
      var c := if found then st.cm.entries[pid] else Candidate(m70, m80, res.score, res.details, 0);
      var b := AddBonus(c, rs);
      var newTier := TierOf(b.score);
      TierMonotone(c.score, b.score);
      if newTier > 0 && (c.tier == 0 || newTier < c.tier) then
        var d := b.(tier := newTier);
        SetGrows(st, pid, d, st.boosted + 1);
        Blocking.SetStored(st.cm, pid, d, Policy());
        Boost(st.cm.Set(pid, d), st.boosted + 1)
      else if found then
        SetGrows(st, pid, b, st.boosted);
        Blocking.SetStored(st.cm, pid, b, Policy());
        Boost(st.cm.Set(pid, b), st.boosted)
      else st
  }

  /** What `BoostWith` does to the pair's own key and to every other key:
      the other keys keep their candidates; a candidate already in the map
      gains exactly the bonus and is re-tiered; a fresh pair is kept only
      when it scores above 20 and its boosted score reaches a tier, and then
      starts from the scorer's result; `boosted` rises by one exactly when
      the pair's tier was set or changed. */
  lemma BoostWithEffect(st: Boost, m70: Row, m80: Row, res: Scored, rs: seq<Check<BonusKind>>)
    requires Total(rs) > 0
    ensures forall k :: k != PairId(m70, m80) ==> Same(st.cm, BoostWith(st, m70, m80, res, rs).cm, k)
    ensures BoostWith(st, m70, m80, res, rs).boosted
      == st.boosted + (if TierAt(BoostWith(st, m70, m80, res, rs).cm, PairId(m70, m80)) != TierAt(st.cm, PairId(m70, m80)) then 1 else 0)
    ensures PairId(m70, m80) in st.cm.entries ==>
      && PairId(m70, m80) in BoostWith(st, m70, m80, res, rs).cm.entries
      && BoostWith(st, m70, m80, res, rs).cm.entries[PairId(m70, m80)].score == st.cm.entries[PairId(m70, m80)].score + Total(rs)
      && BoostWith(st, m70, m80, res, rs).cm.entries[PairId(m70, m80)].tier
         == Retier(st.cm.entries[PairId(m70, m80)].tier, BoostWith(st, m70, m80, res, rs).cm.entries[PairId(m70, m80)].score)
    ensures PairId(m70, m80) !in st.cm.entries ==>
      (PairId(m70, m80) in BoostWith(st, m70, m80, res, rs).cm.entries <==> res.score > 20 && TierOf(res.score + Total(rs)) > 0)
    ensures PairId(m70, m80) !in st.cm.entries && PairId(m70, m80) in BoostWith(st, m70, m80, res, rs).cm.entries ==>
      BoostWith(st, m70, m80, res, rs).cm.entries[PairId(m70, m80)]
      == AddBonus(Candidate(m70, m80, res.score, res.details, 0), rs).(tier := TierOf(res.score + Total(rs)))
  {
  }

  /** One pair of household members, boosted: every other key keeps its
      candidate; a candidate already in the map gains exactly the pair's
      bonus and is re-tiered; a fresh pair is kept exactly when it scores
      above 20 and its boosted score reaches a tier; `boosted` rises by one
      exactly when the pair's tier was set or changed. */
  lemma BoostPairEffect(st: Boost, m70: Row, m80: Row, jw: Similarity)
    ensures forall k :: k != PairId(m70, m80) ==> Same(st.cm, BoostPair(st, m70, m80, jw).cm, k)
    ensures BoostPair(st, m70, m80, jw).boosted
      == st.boosted + (if TierAt(BoostPair(st, m70, m80, jw).cm, PairId(m70, m80)) != TierAt(st.cm, PairId(m70, m80)) then 1 else 0)
    ensures PairId(m70, m80) in st.cm.entries ==>
      && PairId(m70, m80) in BoostPair(st, m70, m80, jw).cm.entries
      && BoostPair(st, m70, m80, jw).cm.entries[PairId(m70, m80)].score == st.cm.entries[PairId(m70, m80)].score + Total(BonusRules(m70, m80, jw))
      && BoostPair(st, m70, m80, jw).cm.entries[PairId(m70, m80)].tier
         == Retier(st.cm.entries[PairId(m70, m80)].tier, BoostPair(st, m70, m80, jw).cm.entries[PairId(m70, m80)].score)
    ensures PairId(m70, m80) !in st.cm.entries ==>
      (PairId(m70, m80) in BoostPair(st, m70, m80, jw).cm.entries <==>
        CalculateScore(m70, m80).score > 20 && TierOf(CalculateScore(m70, m80).score + Total(BonusRules(m70, m80, jw))) > 0)
  {
    BonusRulesBounds(m70, m80, jw);
    BoostWithEffect(st, m70, m80, CalculateScore(m70, m80), BonusRules(m70, m80, jw));
  }

  /** `h80.forEach(member80 => …)` for one 1870 member, skipping the anchor's 1880 row. */
  function BoostRow(st: Boost, m70: Row, h80: seq<Row>, anchor80: string, jw: Similarity): (r: Boost)
    ensures st.cm.Valid() ==> r.cm.Valid()
    ensures Blocking.Stored(st.cm, Policy()) ==> Blocking.Stored(r.cm, Policy())
    ensures Grows(st, r)
  {
    if h80 == [] then st
    else
      var prev := BoostRow(st, m70, h80[..|h80| - 1], anchor80, jw);
      var m80 := h80[|h80| - 1];
      if m80.line == anchor80 then prev
      else
        var r := BoostPair(prev, m70, m80, jw);
        GrowsTrans(st, prev, r);
        r
  }

  /** `h70.forEach(member70 => …)` for one anchor, skipping the anchor's 1870 row. */
  function BoostHouse(st: Boost, h70: seq<Row>, h80: seq<Row>, anchor: Candidate, jw: Similarity): (r: Boost)
    ensures st.cm.Valid() ==> r.cm.Valid()
    ensures Blocking.Stored(st.cm, Policy()) ==> Blocking.Stored(r.cm, Policy())
    ensures Grows(st, r)
  {
    if h70 == [] then st
    else
      var prev := BoostHouse(st, h70[..|h70| - 1], h80, anchor, jw);
      var m70 := h70[|h70| - 1];
      if m70.line == anchor.r70.line then prev
      else
        var r := BoostRow(prev, m70, h80, anchor.r80.line, jw);
        GrowsTrans(st, prev, r);
        r
  }

  /** `anchors.forEach(anchor => …)` */
  function BoostAnchors(st: Boost, anchors: seq<Candidate>, house70: Index, house80: Index, jw: Similarity): (r: Boost)
    ensures st.cm.Valid() ==> r.cm.Valid()
    ensures Blocking.Stored(st.cm, Policy()) ==> Blocking.Stored(r.cm, Policy())
    ensures Grows(st, r)
  {
    if anchors == [] then st
    else
      var prev := BoostAnchors(st, anchors[..|anchors| - 1], house70, house80, jw);
      var a := anchors[|anchors| - 1];
      var r := BoostHouse(prev, Members(house70, HouseKey70(a.r70)), Members(house80, a.r80.family), a, jw);
      GrowsTrans(st, prev, r);
      r
  }

  /** `candidates.forEach(c => candidateMap.set(pairId(c), c))` */
  function MapOf(s: seq<Candidate>): (cm: Blocking.Cands)
    ensures cm.Valid()
  {
    if s == [] then EmptyMap()
    else
      var c := s[|s| - 1];
      MapOf(s[..|s| - 1]).Set(PairId(c.r70, c.r80), c)
  }

  /** A map built from qualifying candidates stores each under its pair id. */
  lemma {:induction false} MapOfStored(s: seq<Candidate>)
    ensures Blocking.AllQualify(s, Policy()) ==> Blocking.Stored(MapOf(s), Policy())
    decreases |s|
  {
    if s != [] {
      assert Blocking.AllQualify(s, Policy()) ==> Blocking.AllQualify(s[..|s| - 1], Policy());
      MapOfStored(s[..|s| - 1]);
    }
  }

  /** The whole boosting pass over the candidates, with the given anchors
      and the two censuses' households. When every candidate qualifies
      (score at least 60, tier of its score), every candidate afterwards
      still does; no candidate loses score or tier, and each added
      candidate is counted in `boosted`. */
  function BoostAll(cands: seq<Candidate>, anchors: seq<Candidate>, d70: seq<Row>, d80: seq<Row>, jw: Similarity): (r: Boost)
    ensures r.cm.Valid()
    ensures Blocking.AllQualify(cands, Policy()) ==> Blocking.Stored(r.cm, Policy())
    ensures Grows(Boost(MapOf(cands), 0), r)
  {
    MapOfStored(cands);
    BoostAnchors(Boost(MapOf(cands), 0), anchors, Group(d70, HouseKey70, false), Group(d80, Family, false), jw)
  }

  // ---------------------------------------------------------------------
  // Which keys the walk touches, what each visited pair gains, and what
  // `boosted` counts
  // ---------------------------------------------------------------------

  /** A row identifier holds no '-', the separator of pair ids. */
  predicate DashFree(s: string) {
    '-' !in s
  }

  /** Pair ids with the same first part agree on the second. */
  lemma SameHead(h: string, x: string, y: string)
    ensures h + x == h + y ==> x == y
  {
    if h + x == h + y {
      assert x == (h + x)[|h|..];
      assert y == (h + y)[|h|..];
    }
  }

  /** The first part of a pair id `a-x` with a dash-free `a` is `a`. */
  lemma DashHead(a: string, x: string, b: string, y: string)
    requires DashFree(a) && DashFree(b)
    ensures a + "-" + x == b + "-" + y ==> a == b
  {
    var u := a + "-" + x;
    if u == b + "-" + y {
      assert u[|a|] == '-' && u[|b|] == '-';
      assert forall i :: 0 <= i < |a| ==> u[i] == a[i];
      assert forall i :: 0 <= i < |b| ==> u[i] == b[i];
      assert |a| == |b|;
      assert a == u[..|a|] == b;
    }
  }

  /** The last part of a pair id `x-a` with a dash-free `a` is `a`. */
  lemma DashTail(x: string, a: string, y: string, b: string)
    requires DashFree(a) && DashFree(b)
    ensures x + "-" + a == y + "-" + b ==> a == b
  {
    var u := x + "-" + a;
    if u == y + "-" + b {
      var n := |u|;
      assert u[n - |a| - 1] == '-' && u[n - |b| - 1] == '-';
      assert forall i :: n - |a| <= i < n ==> u[i] == a[i - (n - |a|)];
      assert forall i :: n - |b| <= i < n ==> u[i] == b[i - (n - |b|)];
      assert |a| == |b|;
      assert a == u[n - |a|..] == b;
    }
  }

  /** The `h80` loop leaves every key it does not visit as it was. */
  lemma {:induction false} BoostRowFrame(st: Boost, m70: Row, h80: seq<Row>, anchor80: string, jw: Similarity, k: string)
    requires forall j :: 0 <= j < |h80| && h80[j].line != anchor80 ==> PairId(m70, h80[j]) != k
    ensures Same(st.cm, BoostRow(st, m70, h80, anchor80, jw).cm, k)
    decreases |h80|
  {
    if h80 != [] {
      var init := h80[..|h80| - 1];
      var m80 := h80[|h80| - 1];
      assert forall j :: 0 <= j < |init| ==> init[j] == h80[j];
      BoostRowFrame(st, m70, init, anchor80, jw, k);
      if m80.line != anchor80 {
        BoostPairFrame(BoostRow(st, m70, init, anchor80, jw), m70, m80, jw, k);
      }
    }
  }

  /** The pair of the 1870 member with the anchor's 1880 row is skipped. */
  lemma BoostRowSkipsAnchor(st: Boost, m70: Row, h80: seq<Row>, anchor80: string, jw: Similarity)
    ensures Same(st.cm, BoostRow(st, m70, h80, anchor80, jw).cm, m70.line + "-" + anchor80)
  {
    forall j | 0 <= j < |h80| && h80[j].line != anchor80
      ensures PairId(m70, h80[j]) != m70.line + "-" + anchor80
    {
      SameHead(m70.line + "-", h80[j].line, anchor80);
    }
    BoostRowFrame(st, m70, h80, anchor80, jw, m70.line + "-" + anchor80);
  }

  /** The `h70` loop leaves every key it does not visit as it was. */
  lemma {:induction false} BoostHouseFrame(st: Boost, h70: seq<Row>, h80: seq<Row>, anchor: Candidate, jw: Similarity, k: string)
    requires forall i, j ::
      (0 <= i < |h70| && 0 <= j < |h80| && h70[i].line != anchor.r70.line && h80[j].line != anchor.r80.line) ==> PairId(h70[i], h80[j]) != k
    ensures Same(st.cm, BoostHouse(st, h70, h80, anchor, jw).cm, k)
    decreases |h70|
  {
    if h70 != [] {
      var init := h70[..|h70| - 1];
      var m70 := h70[|h70| - 1];
      assert forall i :: 0 <= i < |init| ==> init[i] == h70[i];
      BoostHouseFrame(st, init, h80, anchor, jw, k);
      if m70.line != anchor.r70.line {
        BoostRowFrame(BoostHouse(st, init, h80, anchor, jw), m70, h80, anchor.r80.line, jw, k);
      }
    }
  }

  /** With dash-free row identifiers, boosting one anchor's households
      leaves every pair id of the anchor's 1870 row, and every pair id of
      its 1880 row, as it was. */
  lemma BoostHouseSparesAnchor(st: Boost, h70: seq<Row>, h80: seq<Row>, anchor: Candidate, jw: Similarity, s: string)
    requires DashFree(anchor.r70.line) && DashFree(anchor.r80.line)
    requires forall i :: 0 <= i < |h70| ==> DashFree(h70[i].line)
    requires forall j :: 0 <= j < |h80| ==> DashFree(h80[j].line)
    ensures Same(st.cm, BoostHouse(st, h70, h80, anchor, jw).cm, anchor.r70.line + "-" + s)
    ensures Same(st.cm, BoostHouse(st, h70, h80, anchor, jw).cm, s + "-" + anchor.r80.line)
  {
    forall i, j | 0 <= i < |h70| && 0 <= j < |h80| && h70[i].line != anchor.r70.line && h80[j].line != anchor.r80.line
      ensures PairId(h70[i], h80[j]) != anchor.r70.line + "-" + s
    {
      DashHead(h70[i].line, h80[j].line, anchor.r70.line, s);
    }
    BoostHouseFrame(st, h70, h80, anchor, jw, anchor.r70.line + "-" + s);
    forall i, j | 0 <= i < |h70| && 0 <= j < |h80| && h70[i].line != anchor.r70.line && h80[j].line != anchor.r80.line
      ensures PairId(h70[i], h80[j]) != s + "-" + anchor.r80.line
    {
      DashTail(h70[i].line, h80[j].line, s, anchor.r80.line);
    }
    BoostHouseFrame(st, h70, h80, anchor, jw, s + "-" + anchor.r80.line);
  }

  /** A fresh pair is kept: it scores above 20 and its boosted score reaches a tier. */
  predicate Fresh(m70: Row, m80: Row, jw: Similarity) {
    CalculateScore(m70, m80).score > 20 && TierOf(CalculateScore(m70, m80).score + Total(BonusRules(m70, m80, jw))) > 0
  }

  /** What visiting the pair with id `pid` and bonus `bonus` somewhere
      between states `a` and `b` leaves in `b`: a candidate already in `a`
      has gained at least the bonus, and when `kept` holds (the pair is one a
      fresh visit keeps) the pair is a candidate. */
  ghost predicate Raised(a: Boost, b: Boost, pid: string, bonus: int, kept: bool) {
    && (pid in a.cm.entries ==> pid in b.cm.entries && b.cm.entries[pid].score >= a.cm.entries[pid].score + bonus)
    && (kept ==> pid in b.cm.entries)
  }

  lemma RaisedBefore(a: Boost, b: Boost, c: Boost, pid: string, bonus: int, kept: bool)
    requires Grows(a, b) && Raised(b, c, pid, bonus, kept)
    ensures Raised(a, c, pid, bonus, kept)
  {
  }

  lemma RaisedAfter(a: Boost, b: Boost, c: Boost, pid: string, bonus: int, kept: bool)
    requires Raised(a, b, pid, bonus, kept) && Grows(b, c)
    ensures Raised(a, c, pid, bonus, kept)
  {
  }

  /** The visit itself. */
  lemma BoostPairRaised(st: Boost, m70: Row, m80: Row, jw: Similarity)
    ensures Raised(st, BoostPair(st, m70, m80, jw), PairId(m70, m80), Total(BonusRules(m70, m80, jw)), Fresh(m70, m80, jw))
  {
    BoostPairEffect(st, m70, m80, jw);
  }

  /** A visit leaves every other key as it was. */
  lemma BoostPairFrame(st: Boost, m70: Row, m80: Row, jw: Similarity, k: string)
    requires k != PairId(m70, m80)
    ensures Same(st.cm, BoostPair(st, m70, m80, jw).cm, k)
  {
    BoostPairEffect(st, m70, m80, jw);
  }

  /** The `h80` loop visits every 1880 member but the anchor's row. */
  lemma {:induction false} BoostRowRaises(st: Boost, m70: Row, h80: seq<Row>, anchor80: string, jw: Similarity, j: nat)
    requires j < |h80| && h80[j].line != anchor80
    ensures Raised(st, BoostRow(st, m70, h80, anchor80, jw), PairId(m70, h80[j]), Total(BonusRules(m70, h80[j], jw)), Fresh(m70, h80[j], jw))
    decreases |h80|
  {
    var pid, bonus, kept := PairId(m70, h80[j]), Total(BonusRules(m70, h80[j], jw)), Fresh(m70, h80[j], jw);
    var init := h80[..|h80| - 1];
    var last := h80[|h80| - 1];
    var prev := BoostRow(st, m70, init, anchor80, jw);
    assert BoostRow(st, m70, h80, anchor80, jw) == if last.line == anchor80 then prev else BoostPair(prev, m70, last, jw);
    if j < |h80| - 1 {
      assert init[j] == h80[j];
      BoostRowRaises(st, m70, init, anchor80, jw, j);
      if last.line != anchor80 {
        RaisedAfter(st, prev, BoostPair(prev, m70, last, jw), pid, bonus, kept);
      }
    } else {
      BoostPairRaised(prev, m70, last, jw);
      RaisedBefore(st, prev, BoostPair(prev, m70, last, jw), pid, bonus, kept);
    }
  }

  /** The `h70` loop visits every pair of members but those of the anchor's rows. */
  lemma {:induction false} BoostHouseRaises(st: Boost, h70: seq<Row>, h80: seq<Row>, anchor: Candidate, jw: Similarity, i: nat, j: nat)
    requires i < |h70| && h70[i].line != anchor.r70.line
    requires j < |h80| && h80[j].line != anchor.r80.line
    ensures Raised(st, BoostHouse(st, h70, h80, anchor, jw), PairId(h70[i], h80[j]), Total(BonusRules(h70[i], h80[j], jw)), Fresh(h70[i], h80[j], jw))
    decreases |h70|
  {
    var pid, bonus, kept := PairId(h70[i], h80[j]), Total(BonusRules(h70[i], h80[j], jw)), Fresh(h70[i], h80[j], jw);
    var init := h70[..|h70| - 1];
    var last := h70[|h70| - 1];
    var prev := BoostHouse(st, init, h80, anchor, jw);
    if i < |h70| - 1 {
      assert init[i] == h70[i];
      BoostHouseRaises(st, init, h80, anchor, jw, i, j);
      if last.line != anchor.r70.line {
        RaisedAfter(st, prev, BoostRow(prev, last, h80, anchor.r80.line, jw), pid, bonus, kept);
      }
    } else {
      BoostRowRaises(prev, last, h80, anchor.r80.line, jw, j);
      RaisedBefore(st, prev, BoostRow(prev, last, h80, anchor.r80.line, jw), pid, bonus, kept);
    }
  }

  /** Every anchor's households are visited. */
  lemma {:induction false} BoostAnchorsRaises(st: Boost, anchors: seq<Candidate>, house70: Index, house80: Index, jw: Similarity,
                                              n: nat, m70: Row, m80: Row)
    requires n < |anchors|
    requires m70 in Members(house70, HouseKey70(anchors[n].r70)) && m70.line != anchors[n].r70.line
    requires m80 in Members(house80, anchors[n].r80.family) && m80.line != anchors[n].r80.line
    ensures Raised(st, BoostAnchors(st, anchors, house70, house80, jw), PairId(m70, m80), Total(BonusRules(m70, m80, jw)), Fresh(m70, m80, jw))
    decreases |anchors|
  {
    var pid, bonus, kept := PairId(m70, m80), Total(BonusRules(m70, m80, jw)), Fresh(m70, m80, jw);
    var init := anchors[..|anchors| - 1];
    var a := anchors[n];
    var last := anchors[|anchors| - 1];
    var prev := BoostAnchors(st, init, house70, house80, jw);
    var h70, h80 := Members(house70, HouseKey70(a.r70)), Members(house80, a.r80.family);
    var r := BoostHouse(prev, Members(house70, HouseKey70(last.r70)), Members(house80, last.r80.family), last, jw);
    if n < |anchors| - 1 {
      assert init[n] == a;
      BoostAnchorsRaises(st, init, house70, house80, jw, n, m70, m80);
      RaisedAfter(st, prev, r, pid, bonus, kept);
    } else {
      var i :| 0 <= i < |h70| && h70[i] == m70;
      var j :| 0 <= j < |h80| && h80[j] == m80;
      BoostHouseRaises(prev, h70, h80, a, jw, i, j);
      RaisedBefore(st, prev, r, pid, bonus, kept);
    }
  }

  /** The whole boosting pass visits, for every anchor, every pair of a row
      of the anchor's 1870 household and a row of its 1880 household other
      than the anchor's own rows: each such pair that was a candidate gains
      at least its bonus (15 points or more), and each fresh one that scores
      above 20 and whose boosted score reaches a tier becomes a candidate. */
  lemma BoostAllRaises(cands: seq<Candidate>, anchors: seq<Candidate>, d70: seq<Row>, d80: seq<Row>, jw: Similarity,
                       a: Candidate, m70: Row, m80: Row)
    requires a in anchors
    requires m70 in d70 && HouseKey70(m70) == HouseKey70(a.r70) != "" && m70.line != a.r70.line
    requires m80 in d80 && m80.family == a.r80.family != "" && m80.line != a.r80.line
    ensures Raised(Boost(MapOf(cands), 0), BoostAll(cands, anchors, d70, d80, jw), PairId(m70, m80), Total(BonusRules(m70, m80, jw)), Fresh(m70, m80, jw))
  {
    var house70, house80 := Group(d70, HouseKey70, false), Group(d80, Family, false);
    GroupHas(d70, HouseKey70, false, m70);
    GroupHas(d80, Family, false, m80);
    var n :| 0 <= n < |anchors| && anchors[n] == a;
    BoostAnchorsRaises(Boost(MapOf(cands), 0), anchors, house70, house80, jw, n, m70, m80);
  }

  /** The keys whose tier differs between `a` and `b` (untiered when absent). */
  function Retiered(a: Blocking.Cands, b: Blocking.Cands): set<string> {
    set k | k in b.entries && TierAt(a, k) != b.entries[k].tier
  }

  /** `boosted` has risen by at least the number of keys whose tier was set or changed. */
  ghost predicate Counted(a: Boost, b: Boost) {
    |Retiered(a.cm, b.cm)| <= b.boosted - a.boosted
  }

  lemma CardSubset(x: set<string>, y: set<string>)
    requires x <= y
    ensures |x| <= |y|
  {
    assert y == x + (y - x);
  }

  lemma CountedTrans(a: Boost, b: Boost, c: Boost)
    requires Grows(a, b) && Counted(a, b) && Counted(b, c)
    ensures Counted(a, c)
  {
    var ab, bc := Retiered(a.cm, b.cm), Retiered(b.cm, c.cm);
    forall k | k in Retiered(a.cm, c.cm) ensures k in ab + bc {
      if k !in b.cm.entries {
        assert k !in a.cm.entries;
      }
    }
    CardSubset(Retiered(a.cm, c.cm), ab + bc);
  }

  /** A step that changes one key only, and counts a change of its tier, is counted. */
  lemma CountedStep(a: Boost, b: Boost, pid: string)
    requires forall k :: k != pid ==> Same(a.cm, b.cm, k)
    requires b.boosted == a.boosted + (if TierAt(b.cm, pid) != TierAt(a.cm, pid) then 1 else 0)
    ensures Counted(a, b)
  {
    forall k | k != pid ensures k !in Retiered(a.cm, b.cm) {
      assert Same(a.cm, b.cm, k);
    }
    if TierAt(b.cm, pid) != TierAt(a.cm, pid) {
      CardSubset(Retiered(a.cm, b.cm), {pid});
    } else {
      assert Retiered(a.cm, b.cm) == {};
    }
  }

  /** One visited pair changes the tier of its own key only, and counts it. */
  lemma BoostPairCounted(st: Boost, m70: Row, m80: Row, jw: Similarity)
    ensures Counted(st, BoostPair(st, m70, m80, jw))
  {
    BoostPairEffect(st, m70, m80, jw);
    CountedStep(st, BoostPair(st, m70, m80, jw), PairId(m70, m80));
  }

  lemma {:induction false} BoostRowCounted(st: Boost, m70: Row, h80: seq<Row>, anchor80: string, jw: Similarity)
    ensures Counted(st, BoostRow(st, m70, h80, anchor80, jw))
    decreases |h80|
  {
    if h80 != [] {
      var prev := BoostRow(st, m70, h80[..|h80| - 1], anchor80, jw);
      var m80 := h80[|h80| - 1];
      BoostRowCounted(st, m70, h80[..|h80| - 1], anchor80, jw);
      if m80.line != anchor80 {
        BoostPairCounted(prev, m70, m80, jw);
        CountedTrans(st, prev, BoostPair(prev, m70, m80, jw));
      }
    }
  }

  lemma {:induction false} BoostHouseCounted(st: Boost, h70: seq<Row>, h80: seq<Row>, anchor: Candidate, jw: Similarity)
    ensures Counted(st, BoostHouse(st, h70, h80, anchor, jw))
    decreases |h70|
  {
    if h70 != [] {
      var prev := BoostHouse(st, h70[..|h70| - 1], h80, anchor, jw);
      var m70 := h70[|h70| - 1];
      BoostHouseCounted(st, h70[..|h70| - 1], h80, anchor, jw);
      if m70.line != anchor.r70.line {
        BoostRowCounted(prev, m70, h80, anchor.r80.line, jw);
        CountedTrans(st, prev, BoostRow(prev, m70, h80, anchor.r80.line, jw));
      }
    }
  }

  lemma {:induction false} BoostAnchorsCounted(st: Boost, anchors: seq<Candidate>, house70: Index, house80: Index, jw: Similarity)
    ensures Counted(st, BoostAnchors(st, anchors, house70, house80, jw))
    decreases |anchors|
  {
    if anchors != [] {
      var prev := BoostAnchors(st, anchors[..|anchors| - 1], house70, house80, jw);
      var a := anchors[|anchors| - 1];
      BoostAnchorsCounted(st, anchors[..|anchors| - 1], house70, house80, jw);
      BoostHouseCounted(prev, Members(house70, HouseKey70(a.r70)), Members(house80, a.r80.family), a, jw);
      CountedTrans(st, prev, BoostHouse(prev, Members(house70, HouseKey70(a.r70)), Members(house80, a.r80.family), a, jw));
    }
  }

  /** The final `boosted` is at least the number of candidates whose tier
      boosting set or changed, new candidates included. */
  lemma BoostAllCounted(cands: seq<Candidate>, anchors: seq<Candidate>, d70: seq<Row>, d80: seq<Row>, jw: Similarity)
    ensures |Retiered(MapOf(cands), BoostAll(cands, anchors, d70, d80, jw).cm)| <= BoostAll(cands, anchors, d70, d80, jw).boosted
  {
    BoostAnchorsCounted(Boost(MapOf(cands), 0), anchors, Group(d70, HouseKey70, false), Group(d80, Family, false), jw);
  }

  /** The body of the `h80` loop for one pair. */
  method BoostPairStep(st0: Boost, m70: Row, m80: Row, jw: Similarity) returns (st: Boost)
    ensures st == BoostPair(st0, m70, m80, jw)
  {
    var res := CalculateScore(m70, m80);
    var bonus := BonusRules(m70, m80, jw);
    BonusRulesBounds(m70, m80, jw);
    st := ApplyBonus(st0, m70, m80, res, bonus);
  }

  /** The body of the `h80` loop once the pair's score and bonuses are known. */
  method ApplyBonus(st0: Boost, m70: Row, m80: Row, res: Scored, bonus: seq<Check<BonusKind>>) returns (st: Boost)
    requires Total(bonus) > 0
    ensures st == BoostWith(st0, m70, m80, res, bonus)
  {
    st := st0;
    var pid := PairId(m70, m80);
    var found := pid in st.cm.entries;
    if !found && res.score <= 20 {
      return;
    }
    var candidate := if found then st.cm.entries[pid] else Candidate(m70, m80, res.score, res.details, 0);
    var oldTier := candidate.tier;
    candidate := AddBonus(candidate, bonus);
    var newTier := TierOf(candidate.score);
    if newTier > 0 && (oldTier == 0 || newTier < oldTier) {
      candidate := candidate.(tier := newTier);
      st := Boost(st.cm.Set(pid, candidate), st.boosted + 1);
    } else if found {
      st := Boost(st.cm.Set(pid, candidate), st.boosted);
    }
  }

  /** One more 1880 member: skipped when it is the anchor's, otherwise scored. */
  lemma BoostRowStep(st0: Boost, m70: Row, h80: seq<Row>, j: nat, anchor80: string, jw: Similarity)
    requires j < |h80|
    ensures var prev := BoostRow(st0, m70, h80[..j], anchor80, jw);
      BoostRow(st0, m70, h80[..j + 1], anchor80, jw)
      == if h80[j].line == anchor80 then prev else BoostPair(prev, m70, h80[j], jw)
  {
    assert h80[..j + 1][..j] == h80[..j];
  }

  /** One more 1870 member: skipped when it is the anchor's, otherwise its
      `h80` loop runs. */
  lemma BoostHouseStep(st0: Boost, h70: seq<Row>, h80: seq<Row>, i: nat, anchor: Candidate, jw: Similarity)
    requires i < |h70|
    ensures var prev := BoostHouse(st0, h70[..i], h80, anchor, jw);
      BoostHouse(st0, h70[..i + 1], h80, anchor, jw)
      == if h70[i].line == anchor.r70.line then prev else BoostRow(prev, h70[i], h80, anchor.r80.line, jw)
  {
    assert h70[..i + 1][..i] == h70[..i];
  }

  /** The `h80` loop for one 1870 member. */
  method BoostMember(st0: Boost, m70: Row, h80: seq<Row>, anchor80: string, jw: Similarity) returns (st: Boost)
    ensures st == BoostRow(st0, m70, h80, anchor80, jw)
  {
    st := st0;
    var j := 0;
    while j < |h80|
      invariant 0 <= j <= |h80|
      invariant st == BoostRow(st0, m70, h80[..j], anchor80, jw)
    {
      BoostRowStep(st0, m70, h80, j, anchor80, jw);
      if h80[j].line != anchor80 {
        st := BoostPairStep(st, m70, h80[j], jw);
      }
      j := j + 1;
    }
    assert h80[..j] == h80;
  }

  /** The `h70` loop for one anchor. */
  method BoostHousehold(st0: Boost, h70: seq<Row>, h80: seq<Row>, anchor: Candidate, jw: Similarity) returns (st: Boost)
    ensures st == BoostHouse(st0, h70, h80, anchor, jw)
  {
    st := st0;
    var i := 0;
    while i < |h70|
      invariant 0 <= i <= |h70|
      invariant st == BoostHouse(st0, h70[..i], h80, anchor, jw)
    {
      BoostHouseStep(st0, h70, h80, i, anchor, jw);
      if h70[i].line != anchor.r70.line {
        st := BoostMember(st, h70[i], h80, anchor.r80.line, jw);
      }
      i := i + 1;
    }
    assert h70[..i] == h70;
  }

  /** `this.candidates.forEach(c => candidateMap.set(…))` */
  method MapCandidates(cands: seq<Candidate>) returns (cm: Blocking.Cands)
    ensures cm == MapOf(cands)
  {
    cm := EmptyMap();
    var i := 0;
    while i < |cands|
      invariant 0 <= i <= |cands|
      invariant cm == MapOf(cands[..i])
    {
      var c := cands[i];
      cm := cm.Set(PairId(c.r70, c.r80), c);
      assert cands[..i + 1][..i] == cands[..i];
      i := i + 1;
    }
    assert cands[..i] == cands;
  }

  /** `anchors.forEach(anchor => …)`: each anchor's 1870 household (by
      `family_number || family || dwelling`) against its 1880 household (by
      `family`), an unknown key giving no members. */
  method BoostAnchorsLoop(st0: Boost, anchors: seq<Candidate>, house70: Index, house80: Index, jw: Similarity) returns (st: Boost)
    ensures st == BoostAnchors(st0, anchors, house70, house80, jw)
  {
    st := st0;
    var a := 0;
    while a < |anchors|
      invariant 0 <= a <= |anchors|
      invariant st == BoostAnchors(st0, anchors[..a], house70, house80, jw)
    {
      var anchor := anchors[a];
      var key70 := HouseKey70(anchor.r70);
      var h70 := if key70 in house70.entries then house70.entries[key70] else [];
      var h80 := if anchor.r80.family in house80.entries then house80.entries[anchor.r80.family] else [];
      st := BoostHousehold(st, h70, h80, anchor, jw);
      assert anchors[..a + 1][..a] == anchors[..a];
      a := a + 1;
    }
    assert anchors[..a] == anchors;
  }
}
