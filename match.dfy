/** The permissive revision of blocking and scoring (`match.js`): missing
    race and gender default to 'U' and race is left out of the keys; the
    scorer compares cleaned fields and has a dedup mode that drops the
    age-regression penalty. */
module Match {
  import opened Strings
  import opened Census
  import Blocking

  /** `clean(val)`: trimmed, every run of white space made one blank, upper-cased. */
  function Clean(v: string): string {
    Upper(Collapse(Trim(v)))
  }

  /** A cleaned value has no white space at either end, and it is empty
      exactly when the value holds nothing but white space. */
  lemma CleanTrimmed(v: string)
    ensures Trimmed(Clean(v))
    ensures |Clean(v)| <= |v|
    ensures Clean(v) == "" <==> Trim(v) == ""
  {
    CollapseTrimmed(Trim(v));
    UpperSpace(Collapse(Trim(v)));
  }

  lemma UpperSpace(s: string)
    ensures forall i :: 0 <= i < |s| ==> (IsSpace(Upper(s)[i]) <==> IsSpace(s[i]))
  {
  }

  /** Cleaning a cleaned value changes nothing. */
  lemma CleanIdempotent(v: string)
    ensures Clean(Clean(v)) == Clean(v)
  {
    var c := Collapse(Trim(v));
    CollapseTrimmed(Trim(v));
    UpperSpace(c);
    assert Trimmed(Upper(c));
    UpperCollapse(c);
    CollapseIdempotent(Trim(v));
    UpperIdempotent(c);
  }

  /** `clean(record.gender || 'U')`: a missing gender reads as 'U'. */
  function Gender(r: Row): (g: string)
    ensures r.gender == "" ==> g == "U"
  {
    Clean(Or(r.gender, "U"))
  }

  /** The block keys of a record: B1 (NYSIIS last name and normalised first
      name), B2 (normalised first name and birth year) and B3 (last name and
      two-letter birth place), each carrying the gender and none the race;
      `Keys3` states their shape and order. */
  function BlockKeys(r: Row): (keys: seq<string>)
    ensures |keys| <= 3
    ensures Blocking.NoDup(keys)
  {
    var gender := Gender(r);
    var nysiisLast := Clean(r.nysiisLastName);
    var normFirst := Clean(r.normFirstName);
    var lastName := Clean(Or(r.lastName, r.lastNameTypo));
    var birthYear := Or(r.birthYear10, r.birthYear);
    var birthPlace := Take(Clean(r.birthPlace), 2);
    Blocking.Keys3(nysiisLast != "" && normFirst != "", [nysiisLast, normFirst, gender],
                   normFirst != "" && birthYear != "", [normFirst, birthYear, gender],
                   lastName != "" && birthPlace != "", [lastName, gender, birthPlace])
  }

  /** Each key family is present exactly when its two fields are, whatever
      the record's race and gender. */
  lemma BlockKeysPresent(r: Row)
    ensures Blocking.HasTag(BlockKeys(r), '1') <==> Clean(r.nysiisLastName) != "" && Clean(r.normFirstName) != ""
    ensures Blocking.HasTag(BlockKeys(r), '2') <==> Clean(r.normFirstName) != "" && Or(r.birthYear10, r.birthYear) != ""
    ensures Blocking.HasTag(BlockKeys(r), '3') <==> Clean(Or(r.lastName, r.lastNameTypo)) != "" && Clean(r.birthPlace) != ""
  {
    assert Take(Clean(r.birthPlace), 2) != "" <==> Clean(r.birthPlace) != "";
  }

  /** The race of a record plays no part in its keys. */
  lemma BlockKeysIgnoreRace(r: Row, race: string)
    ensures BlockKeys(r.(race := race)) == BlockKeys(r)
  {
  }

  /** No record gets the same block key twice. */
  lemma BlockKeysDistinct()
    ensures Blocking.DistinctKeys(BlockKeys)
  {
  }

  /** The scoring rules, one constructor per `details` label. */
  datatype Kind =
    | GenderMismatch | AgeRegression | ContradictoryBirthPlace
    | ExactBirthYear | BirthYearPm2 | BirthYearPm5 | BirthYearOver10
    | ExactFull | ExactFirstLast | ExactLastNormFirst | ExactLastFuzzyFirst
    | RaceMatch | NonWhiteMatch
    | NormOccupation

  predicate PenaltyKind(k: Kind) {
    k.GenderMismatch? || k.AgeRegression? || k.ContradictoryBirthPlace?
  }

  /** The `if … else if …` chain on birth years. */
  predicate BirthKind(k: Kind) {
    k.ExactBirthYear? || k.BirthYearPm2? || k.BirthYearPm5? || k.BirthYearOver10?
  }

  /** The `if … else if …` chain on names. */
  predicate NameKind(k: Kind) {
    k.ExactFull? || k.ExactFirstLast? || k.ExactLastNormFirst? || k.ExactLastFuzzyFirst?
  }

  /** The `if … else if …` pair on races. */
  predicate RaceKind(k: Kind) {
    k.RaceMatch? || k.NonWhiteMatch?
  }

  function Abs(x: int): nat {
    if x < 0 then -x else x
  }

  /** The cleaned fields `calculateScore` compares (its object `s`), with the
      Jaro-Winkler similarity of the first names. The 1880-style last name
      falls back to the misspelt `last-_name` column on both sides. */
  datatype Fields = Fields(
    full1: string, full2: string, last1: string, last2: string, first1: string, first2: string,
    by1: int, by2: int, gen1: string, gen2: string, race1: string, race2: string,
    bpl1: string, bpl2: string, normFirst1: string, normFirst2: string, occ1: string, occ2: string,
    jwFirst: real)

  function FieldsOf(a: Row, b: Row, jw: Similarity): (s: Fields)
    ensures s.gen1 == Clean(a.gender) && s.gen2 == Clean(b.gender)
    ensures s.by1 == a.birthYearNum && s.by2 == b.birthYearNum
  {
    var first1, first2 := Clean(a.firstName), Clean(b.firstName);
    Fields(Clean(a.fullName), Clean(b.fullName),
           Or(Clean(a.lastName), Clean(a.lastNameTypo)), Or(Clean(b.lastName), Clean(b.lastNameTypo)),
           first1, first2, a.birthYearNum, b.birthYearNum,
           Clean(a.gender), Clean(b.gender), Clean(a.race), Clean(b.race),
           Clean(a.birthPlace), Clean(b.birthPlace), Clean(a.normFirstName), Clean(b.normFirstName),
           Clean(a.normOccupation), Clean(b.normOccupation), jw(first1, first2))
  }

  /** Both genders present and different. */
  predicate GenderClash(s: Fields) {
    s.gen1 != "" && s.gen2 != "" && s.gen1 != s.gen2
  }

  /** Both birth years present and the second more than 10 years before the first. */
  predicate Regressed(s: Fields) {
    s.by1 != 0 && s.by2 != 0 && s.by2 < s.by1 && s.by1 - s.by2 > 10
  }

  predicate Contradicts(s: Fields) {
    s.bpl1 != "" && s.bpl2 != "" && s.bpl1 != "VA" && s.bpl2 != "VA" && s.bpl1 != s.bpl2
  }

  /** The penalties; the regression penalty only in 'match' mode. */
  function Penalties(s: Fields, matchMode: bool): (rs: seq<Check<Kind>>)
    ensures |rs| == 3 && rs[0].kind == GenderMismatch && (rs[0].fired <==> GenderClash(s))
    ensures rs[1].kind == AgeRegression && (rs[1].fired <==> matchMode && Regressed(s))
    ensures forall i :: 0 <= i < |rs| ==> PenaltyKind(rs[i].kind) && rs[i].points < 0
  {
    Rule(GenderClash(s), GenderMismatch, "Gender mismatch", -500)
    + Rule(matchMode && Regressed(s), AgeRegression, "Age regression > 10", -100)
    + Rule(Contradicts(s), ContradictoryBirthPlace, "Contradictory birth place", -50)
  }

  /** The birth-year chain: at most one rule, none unless a year is present,
      the far-apart penalty on a difference of 10 or more, and nothing on a
      difference of 6 to 9. */
  function BirthRule(s: Fields): (rs: seq<Check<Kind>>)
    ensures |rs| <= 1
    ensures forall i :: 0 <= i < |rs| ==> rs[i].fired && BirthKind(rs[i].kind)
    ensures s.by1 == 0 ==> rs == []
    ensures s.by1 != 0 && s.by2 != 0 && Abs(s.by1 - s.by2) >= 10 ==> rs == [Check(BirthYearOver10, "Birth year > 10", -200, true)]
    ensures 6 <= Abs(s.by1 - s.by2) <= 9 ==> rs == []
  {
    var absDiff := Abs(s.by1 - s.by2);
    if s.by1 == s.by2 && s.by1 != 0 then [Check(ExactBirthYear, "Exact birth year", 50, true)]
    else if s.by1 != 0 && s.by2 != 0 && absDiff <= 2 then [Check(BirthYearPm2, "Birth year +/- 2", 30, true)]
    else if s.by1 != 0 && s.by2 != 0 && absDiff <= 5 then [Check(BirthYearPm5, "Birth year +/- 5", 5, true)]
    else if s.by1 != 0 && s.by2 != 0 && absDiff >= 10 then [Check(BirthYearOver10, "Birth year > 10", -200, true)]
    else []
  }

  /** The name chain: at most one of +100, +80, +70 and +60. */
  function NameRule(s: Fields): (rs: seq<Check<Kind>>)
    ensures |rs| <= 1
    ensures forall i :: 0 <= i < |rs| ==> rs[i].fired && NameKind(rs[i].kind) && rs[i].points <= 100
  {
    if s.full1 == s.full2 && |s.full1| > 0 then [Check(ExactFull, "Exact Full", 100, true)]
    else if s.last1 == s.last2 && s.first1 == s.first2 && s.last1 != "" then [Check(ExactFirstLast, "Exact First/Last", 80, true)]
    else if s.last1 == s.last2 && s.normFirst1 == s.normFirst2 && s.last1 != "" then [Check(ExactLastNormFirst, "Exact Last + Norm First", 70, true)]
    else if s.last1 == s.last2 && s.jwFirst > 0.85 then [Check(ExactLastFuzzyFirst, "Exact Last + Fuzzy First", 60, true)]
    else []
  }

  /** The race pair: +10 at most once, for equal present races or for two
      present races neither of which is W. */
  function RaceRule(s: Fields): (rs: seq<Check<Kind>>)
    ensures |rs| <= 1
    ensures forall i :: 0 <= i < |rs| ==> rs[i].fired && RaceKind(rs[i].kind) && rs[i].points == 10
    ensures |rs| == 1 <==> (s.race1 == s.race2 && s.race1 != "") || (s.race1 != "W" && s.race2 != "W" && s.race1 != "" && s.race2 != "")
  {
    if s.race1 == s.race2 && s.race1 != "" then [Check(RaceMatch, "Race Match", 10, true)]
    else if s.race1 != "W" && s.race2 != "W" && s.race1 != "" && s.race2 != "" then [Check(NonWhiteMatch, "Non-White Match", 10, true)]
    else []
  }

  function Occupation(s: Fields): (rs: seq<Check<Kind>>)
    ensures |rs| == 1 && rs[0].kind == NormOccupation && rs[0].points == 10
  {
    Rule(s.occ1 == s.occ2 && s.occ1 != "", NormOccupation, "Norm occupation", 10)
  }

  /** The rules of `calculateScore` in the order they push their labels. */
  function Rules(s: Fields, matchMode: bool): seq<Check<Kind>> {
    Penalties(s, matchMode) + BirthRule(s) + NameRule(s) + RaceRule(s) + Occupation(s)
  }

  /** `calculateScore(set1, set2, mode)`: the total of the fired rules and
      their labels joined by ", ". No pair scores above 170, and a pair whose
      present genders differ scores below zero. */
  function CalculateScore(a: Row, b: Row, jw: Similarity, mode: string): (r: Scored)
    ensures r.score <= 170
    ensures Clean(a.gender) != "" && Clean(b.gender) != "" && Clean(a.gender) != Clean(b.gender) ==> r.score < 0
  {
    var s := FieldsOf(a, b, jw);
    RulesBounds(s, mode == "match");
    ScoredOf(Rules(s, mode == "match"))
  }

  /** The points of the five sections add up. */
  lemma RulesTotal(s: Fields, matchMode: bool)
    ensures Total(Rules(s, matchMode)) == Total(Penalties(s, matchMode)) + Total(BirthRule(s)) + Total(NameRule(s)) + Total(RaceRule(s)) + Total(Occupation(s))
  {
    var p, y, n, g, o := Penalties(s, matchMode), BirthRule(s), NameRule(s), RaceRule(s), Occupation(s);
    TotalAppend(p, y);
    TotalAppend(p + y, n);
    TotalAppend(p + y + n, g);
    TotalAppend(p + y + n + g, o);
  }

  /** The penalties: -500 for clashing genders, -100 for a regression in
      'match' mode, -50 for contradicting birth places. */
  lemma PenaltiesTotal(s: Fields, matchMode: bool)
    ensures Total(Penalties(s, matchMode))
         == (if GenderClash(s) then -500 else 0) + (if matchMode && Regressed(s) then -100 else 0) + (if Contradicts(s) then -50 else 0)
  {
    var r1 := Rule(GenderClash(s), GenderMismatch, "Gender mismatch", -500);
    var r2 := Rule(matchMode && Regressed(s), AgeRegression, "Age regression > 10", -100);
    var r3 := Rule(Contradicts(s), ContradictoryBirthPlace, "Contradictory birth place", -50);
    RuleFacts(GenderClash(s), GenderMismatch, "Gender mismatch", -500, GenderMismatch);
    RuleFacts(matchMode && Regressed(s), AgeRegression, "Age regression > 10", -100, GenderMismatch);
    RuleFacts(Contradicts(s), ContradictoryBirthPlace, "Contradictory birth place", -50, GenderMismatch);
    TotalAppend(r1, r2);
    TotalAppend(r1 + r2, r3);
  }

  lemma RulesBounds(s: Fields, matchMode: bool)
    ensures Total(Rules(s, matchMode)) <= 170
    ensures GenderClash(s) ==> Total(Rules(s, matchMode)) < 0
  {
    RulesTotal(s, matchMode);
    PenaltiesTotal(s, matchMode);
    TotalSingle(BirthRule(s));
    TotalSingle(NameRule(s));
    TotalSingle(RaceRule(s));
    TotalSingle(Occupation(s));
  }

  /** The mode changes only the regression penalty: in 'match' mode the
      score is 100 lower exactly when both birth years are present and the
      second is more than 10 years before the first. */
  lemma ModeOnlyRegression(a: Row, b: Row, jw: Similarity, mode: string)
    requires mode != "match"
    ensures CalculateScore(a, b, jw, "match").score
         == CalculateScore(a, b, jw, mode).score
            - (if a.birthYearNum != 0 && b.birthYearNum != 0 && a.birthYearNum - b.birthYearNum > 10 then 100 else 0)
  {
    var s := FieldsOf(a, b, jw);
    RulesTotal(s, true);
    RulesTotal(s, false);
    PenaltiesTotal(s, true);
    PenaltiesTotal(s, false);
  }

  /** The rules of a kind counted section by section. */
  lemma RulesCount(s: Fields, matchMode: bool, ks: Kind -> bool)
    ensures CountKinds(Rules(s, matchMode), ks)
         == CountKinds(Penalties(s, matchMode), ks) + CountKinds(BirthRule(s), ks) + CountKinds(NameRule(s), ks)
            + CountKinds(RaceRule(s), ks) + CountKinds(Occupation(s), ks)
  {
    var p, y, n, g, o := Penalties(s, matchMode), BirthRule(s), NameRule(s), RaceRule(s), Occupation(s);
    CountAppend(p, y, ks);
    CountAppend(p + y, n, ks);
    CountAppend(p + y + n, g, ks);
    CountAppend(p + y + n + g, o, ks);
  }

  /** At most one birth-year rule fires. */
  lemma BirthExclusive(s: Fields, matchMode: bool)
    ensures CountKinds(Rules(s, matchMode), BirthKind) <= 1
  {
    var p, y, n, g, o := Penalties(s, matchMode), BirthRule(s), NameRule(s), RaceRule(s), Occupation(s);
    RulesCount(s, matchMode, BirthKind);
    CountNone(p, BirthKind); CountNone(n, BirthKind); CountNone(g, BirthKind); CountNone(o, BirthKind);
    CountBounded(y, BirthKind);
  }

  /** At most one name rule fires. */
  lemma NameExclusive(s: Fields, matchMode: bool)
    ensures CountKinds(Rules(s, matchMode), NameKind) <= 1
  {
    var p, y, n, g, o := Penalties(s, matchMode), BirthRule(s), NameRule(s), RaceRule(s), Occupation(s);
    RulesCount(s, matchMode, NameKind);
    CountNone(p, NameKind); CountNone(y, NameKind); CountNone(g, NameKind); CountNone(o, NameKind);
    CountBounded(n, NameKind);
  }

  /** At most one race rule fires. */
  lemma RaceExclusive(s: Fields, matchMode: bool)
    ensures CountKinds(Rules(s, matchMode), RaceKind) <= 1
  {
    var p, y, n, g, o := Penalties(s, matchMode), BirthRule(s), NameRule(s), RaceRule(s), Occupation(s);
    RulesCount(s, matchMode, RaceKind);
    CountNone(p, RaceKind); CountNone(y, RaceKind); CountNone(n, RaceKind); CountNone(o, RaceKind);
    CountBounded(g, RaceKind);
  }

  /** Two records without any last name still earn "Exact Last + Fuzzy
      First" when their first names are similar enough: the last rule of the
      name chain does not require a last name, unlike the two before it. */
  lemma FuzzyFirstWithoutLastName(s: Fields)
    requires s.last1 == "" && s.last2 == "" && s.full1 != s.full2 && s.jwFirst > 0.85
    ensures NameRule(s) == [Check(ExactLastFuzzyFirst, "Exact Last + Fuzzy First", 60, true)]
  {
  }
}
