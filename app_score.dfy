/** The block keys and the pair scorer of the browser application
    (`app.js`, `getBlockKeys` and `calculateScore`). */
module AppScore {
  import opened Strings
  import opened Census
  import Blocking

  /** The block keys of a record: none when race or gender is missing,
      otherwise up to three keys tagged B1 (NYSIIS last name and normalised
      first name), B2 (normalised first name and birth year) and B3 (last name
      and birth place), each also carrying gender and race initial. */
  function BlockKeys(r: Row): (keys: seq<string>)
    ensures Upper(Take(r.race, 1)) == "" || Upper(r.gender) == "" ==> keys == []
    ensures |keys| <= 3
    ensures forall i :: 0 <= i < |keys| ==> |keys[i]| >= 3 && keys[i][0] == 'B' && keys[i][2] == ':'
    ensures forall i, j :: 0 <= i < j < |keys| ==> keys[i][1] < keys[j][1]
  {
    var race := Upper(Take(r.race, 1));
    var gender := Upper(r.gender);
    if race == "" || gender == "" then []
    else
      var nysiisLast := Upper(r.nysiisLastName);
      var normFirst := Upper(r.normFirstName);
      var lastName := Upper(Or(r.lastName, Or(r.lastNameUnderscore, r.lastNameTypo)));
      var birthYear := Or(r.birthYear10, r.birthYear);
      var birthPlace := Take(Upper(r.birthPlace), 2);
      Blocking.KeyIf(nysiisLast != "" && normFirst != "", Blocking.Key('1', [nysiisLast, normFirst, gender, race]))
      + Blocking.KeyIf(normFirst != "" && birthYear != "", Blocking.Key('2', [normFirst, birthYear, gender, race]))
      + Blocking.KeyIf(lastName != "" && birthPlace != "", Blocking.Key('3', [lastName, gender, race, birthPlace]))
  }

  /** Which key families a record with race and gender gets: each one
      exactly when its fields are present. */
  lemma BlockKeysPresent(r: Row)
    requires Take(r.race, 1) != "" && r.gender != ""
    ensures Blocking.HasTag(BlockKeys(r), '1') <==> r.nysiisLastName != "" && r.normFirstName != ""
    ensures Blocking.HasTag(BlockKeys(r), '2') <==> r.normFirstName != "" && Or(r.birthYear10, r.birthYear) != ""
    ensures Blocking.HasTag(BlockKeys(r), '3') <==> Or(r.lastName, Or(r.lastNameUnderscore, r.lastNameTypo)) != "" && r.birthPlace != ""
  {
    var race := Upper(Take(r.race, 1));
    var gender := Upper(r.gender);
    var nysiisLast := Upper(r.nysiisLastName);
    var normFirst := Upper(r.normFirstName);
    var lastName := Upper(Or(r.lastName, Or(r.lastNameUnderscore, r.lastNameTypo)));
    var birthYear := Or(r.birthYear10, r.birthYear);
    var birthPlace := Take(Upper(r.birthPlace), 2);
    assert race != "" && gender != "";
    assert nysiisLast != "" <==> r.nysiisLastName != "";
    assert normFirst != "" <==> r.normFirstName != "";
    assert lastName != "" <==> Or(r.lastName, Or(r.lastNameUnderscore, r.lastNameTypo)) != "";
    assert birthPlace != "" <==> r.birthPlace != "";
    Blocking.TaggedKeys(nysiisLast != "" && normFirst != "", normFirst != "" && birthYear != "", lastName != "" && birthPlace != "",
      Blocking.Key('1', [nysiisLast, normFirst, gender, race]), Blocking.Key('2', [normFirst, birthYear, gender, race]),
      Blocking.Key('3', [lastName, gender, race, birthPlace]));
  }

  /** No record gets the same block key twice. */
  lemma BlockKeysDistinct()
    ensures Blocking.DistinctKeys(BlockKeys)
  {
    forall r: Row ensures Blocking.NoDup(BlockKeys(r)) {
      var keys := BlockKeys(r);
      forall i, j | 0 <= i < j < |keys| ensures keys[i] != keys[j] {
        assert keys[i][1] < keys[j][1];
      }
    }
  }

  /** The scoring rules of `calculateScore`, one constructor per `details` label. */
  datatype Kind =
    | GenderMismatch | BirthYearRegression | ContradictoryBirthPlace
    | FullNameIdentical | ExactFirstLastNoMiddle | ExactFirstLast | ExactLastNormFirst | ExactLast | NysiisNormFirst
    | ExactBirthYear | BirthYearPm2 | BirthYearPm5
    | RaceMatch | NormOccupation

  /** The `if … else if …` chain on names. */
  predicate NameKind(k: Kind) {
    k.FullNameIdentical? || k.ExactFirstLastNoMiddle? || k.ExactFirstLast? || k.ExactLastNormFirst? || k.ExactLast? || k.NysiisNormFirst?
  }

  /** The `if … else if …` chain on birth years. */
  predicate BirthKind(k: Kind) {
    k.ExactBirthYear? || k.BirthYearPm2? || k.BirthYearPm5?
  }

  function Abs(x: int): nat {
    if x < 0 then -x else x
  }

  /** `(first + ' ' + (mid ? mid + ' ' : '') + last).trim()` */
  function FullName(first: string, mid: string, last: string): string {
    Trim(first + " " + (if mid != "" then mid + " " else "") + last)
  }

  /** The normalised fields `calculateScore` compares (its object `s`, and
      the two full names built from it): text fields upper-cased, numbers
      parsed with missing read as 0. */
  datatype Fields = Fields(
    last70: string, last80: string, first70: string, first80: string, mid70: string, mid80: string,
    by70: int, by80: int, gen70: string, gen80: string, race70: string, race80: string,
    bpl70: string, bpl80: string, nyLast70: string, nyLast80: string,
    normFirst70: string, normFirst80: string, normOcc70: string, normOcc80: string,
    full70: string, full80: string)

  /** The 1880 last name is `last_name`, or else the misspelt `last-_name` column. */
  function FieldsOf(a: Row, b: Row): (s: Fields)
    ensures s.gen70 == Upper(a.gender) && s.gen80 == Upper(b.gender)
    ensures s.last70 == Upper(a.lastName)
    ensures b.lastName != "" ==> s.last80 == Upper(b.lastName)
  {
    Fields(Upper(a.lastName), Or(Upper(b.lastName), Upper(b.lastNameTypo)),
           Upper(a.firstName), Upper(b.firstName), Upper(a.middleName), Upper(b.middleName),
           a.birthYearNum, b.birthYearNum, Upper(a.gender), Upper(b.gender), Upper(a.race), Upper(b.race),
           Upper(a.birthPlace), Upper(b.birthPlace), Upper(a.nysiisLastName), Upper(b.nysiisLastName),
           Upper(a.normFirstName), Upper(b.normFirstName), Upper(a.normOccupation), Upper(b.normOccupation),
           FullName(Upper(a.firstName), Upper(a.middleName), Upper(a.lastName)),
           FullName(Upper(b.firstName), Upper(b.middleName), Or(Upper(b.lastName), Upper(b.lastNameTypo))))
  }

  /** The name chain: at most one of its rules fires. */
  function NameRule(s: Fields): (rs: seq<Check<Kind>>)
    ensures |rs| <= 1
    ensures forall i :: 0 <= i < |rs| ==> NameKind(rs[i].kind)
    ensures forall i :: 0 <= i < |rs| ==> rs[i].fired
    ensures s.last70 == s.last80 && s.first70 == s.first80 && s.last70 != "" ==> |rs| == 1 && rs[0].points >= 80
  {
    if s.full70 == s.full80 && |s.full70| > 0 then [Check(FullNameIdentical, "Full name identical", 100, true)]
    else if s.last70 == s.last80 && s.first70 == s.first80 && s.last70 != "" then
      if s.mid70 == "" && s.mid80 == "" then [Check(ExactFirstLastNoMiddle, "Exact First/Last (No Middle)", 100, true)]
      else [Check(ExactFirstLast, "Exact First/Last", 80, true)]
    else if s.last70 == s.last80 && s.normFirst70 == s.normFirst80 && s.last70 != "" then
      [Check(ExactLastNormFirst, "Exact Last + Norm First", 70, true)]
    else if s.last70 == s.last80 && s.last70 != "" then [Check(ExactLast, "Exact Last", 50, true)]
    else if s.nyLast70 == s.nyLast80 && s.normFirst70 == s.normFirst80 && s.nyLast70 != "" then
      [Check(NysiisNormFirst, "NYSIIS Last + Norm First", 50, true)]
    else []
  }

  /** The birth-year chain: at most one of its rules fires, and one always
      fires when the years are within 5 of each other. */
  function BirthRule(s: Fields): (rs: seq<Check<Kind>>)
    ensures |rs| <= 1
    ensures forall i :: 0 <= i < |rs| ==> BirthKind(rs[i].kind)
    ensures forall i :: 0 <= i < |rs| ==> rs[i].fired
    ensures |rs| == 1 <==> Abs(s.by70 - s.by80) <= 5
    ensures s.by70 == 0 && s.by80 == 0 ==> rs == [Check(BirthYearPm2, "Birth year +/- 2", 33, true)]
  {
    var byDiff := Abs(s.by70 - s.by80);
    if s.by70 == s.by80 && s.by70 != 0 then [Check(ExactBirthYear, "Exact birth year", 50, true)]
    else if byDiff <= 2 then [Check(BirthYearPm2, "Birth year +/- 2", 33, true)]
    else if byDiff <= 5 then [Check(BirthYearPm5, "Birth year +/- 5", 20, true)]
    else []
  }

  /** The three penalties. */
  function Penalties(s: Fields): (rs: seq<Check<Kind>>)
    ensures |rs| == 3 && rs[0].kind == GenderMismatch && (rs[0].fired <==> s.gen70 != s.gen80)
    ensures forall i :: 0 <= i < |rs| ==> !NameKind(rs[i].kind) && !BirthKind(rs[i].kind) && rs[i].points < 0
  {
    var r1 := Push([], s.gen70 != s.gen80, GenderMismatch, "Gender mismatch", -500);
    var r2 := Push(r1, s.by80 < s.by70, BirthYearRegression, "Birth year regression", -30);
    Push(r2, s.bpl70 != "" && s.bpl80 != "" && s.bpl70 != "VA" && s.bpl80 != "VA" && s.bpl70 != s.bpl80,
         ContradictoryBirthPlace, "Contradictory birth place", -50)
  }

  /** The race and occupation rules. */
  function Agreement(s: Fields): (rs: seq<Check<Kind>>)
    ensures |rs| == 2
    ensures forall i :: 0 <= i < |rs| ==> !NameKind(rs[i].kind) && !BirthKind(rs[i].kind) && rs[i].points == 10
  {
    var r6 := Push([], (s.race70 == s.race80 && s.race70 != "") || (s.race70 == "B" && s.race80 == "M") || (s.race70 == "M" && s.race80 == "B"),
                   RaceMatch, "Race Match", 10);
    Push(r6, s.normOcc70 == s.normOcc80 && s.normOcc70 != "", NormOccupation, "Norm occupation", 10)
  }

  /** The rules that fire for a pair, in the order `calculateScore` pushes them. */
  function Rules(s: Fields): seq<Check<Kind>> {
    Penalties(s) + NameRule(s) + BirthRule(s) + Agreement(s)
  }

  /** `calculateScore(r1870, r1880)`: the total of the fired rules and their
      labels joined by ", ". No pair scores above 170, and a pair whose
      genders differ scores below zero. */
  function CalculateScore(a: Row, b: Row): (s: Scored)
    ensures s.score <= 170
    ensures Upper(a.gender) != Upper(b.gender) ==> s.score < 0
  {
    RulesBounds(FieldsOf(a, b));
    ScoredOf(Rules(FieldsOf(a, b)))
  }

  /** The race and occupation rules add 0, 10 or 20. */
  lemma AgreementTotal(s: Fields)
    ensures 0 <= Total(Agreement(s)) <= 20
  {
    var e: seq<Check<Kind>> := [];
    var c6 := (s.race70 == s.race80 && s.race70 != "") || (s.race70 == "B" && s.race80 == "M") || (s.race70 == "M" && s.race80 == "B");
    PushFacts(e, c6, RaceMatch, "Race Match", 10, NameKind);
    PushFacts(Push(e, c6, RaceMatch, "Race Match", 10), s.normOcc70 == s.normOcc80 && s.normOcc70 != "", NormOccupation, "Norm occupation", 10, NameKind);
  }

  /** The penalties never add points, a gender mismatch costs 500, and
      they cost nothing when gender, birth year and birth place agree. */
  lemma PenaltiesTotal(s: Fields)
    ensures Total(Penalties(s)) <= 0
    ensures s.gen70 != s.gen80 ==> Total(Penalties(s)) <= -500
    ensures s.gen70 == s.gen80 && s.by70 == s.by80 && s.bpl70 == s.bpl80 ==> Total(Penalties(s)) == 0
  {
    var e: seq<Check<Kind>> := [];
    var r1 := Push(e, s.gen70 != s.gen80, GenderMismatch, "Gender mismatch", -500);
    var r2 := Push(r1, s.by80 < s.by70, BirthYearRegression, "Birth year regression", -30);
    var c3 := s.bpl70 != "" && s.bpl80 != "" && s.bpl70 != "VA" && s.bpl80 != "VA" && s.bpl70 != s.bpl80;
    PushFacts(e, s.gen70 != s.gen80, GenderMismatch, "Gender mismatch", -500, NameKind);
    PushFacts(r1, s.by80 < s.by70, BirthYearRegression, "Birth year regression", -30, NameKind);
    PushFacts(r2, c3, ContradictoryBirthPlace, "Contradictory birth place", -50, NameKind);
  }

  lemma RulesBounds(s: Fields)
    ensures Total(Rules(s)) <= 170
    ensures s.gen70 != s.gen80 ==> Total(Rules(s)) <= -330
  {
    var p, n, y, g := Penalties(s), NameRule(s), BirthRule(s), Agreement(s);
    TotalAppend(p, n);
    TotalAppend(p + n, y);
    TotalAppend(p + n + y, g);
    PenaltiesTotal(s);
    TotalSingle(n);
    TotalSingle(y);
    AgreementTotal(s);
  }

  /** The rules of a kind satisfying `ks` among the fired rules all come
      from the two chains when no penalty and no agreement rule is of such a kind. */
  lemma {:induction false} CountChains(s: Fields, ks: Kind -> bool)
    requires forall k: Kind :: ks(k) ==> NameKind(k) || BirthKind(k)
    ensures CountKinds(Rules(s), ks) == CountKinds(NameRule(s), ks) + CountKinds(BirthRule(s), ks)
  {
    var p, n, y, g := Penalties(s), NameRule(s), BirthRule(s), Agreement(s);
    CountAppend(p, n, ks);
    CountAppend(p + n, y, ks);
    CountAppend(p + n + y, g, ks);
    CountNone(p, ks);
    CountNone(g, ks);
  }

  /** At most one name rule and at most one birth-year rule fire. */
  lemma RulesExclusive(s: Fields)
    ensures CountKinds(Rules(s), NameKind) <= 1
    ensures CountKinds(Rules(s), BirthKind) <= 1
  {
    var n, y := NameRule(s), BirthRule(s);
    CountChains(s, NameKind);
    CountChains(s, BirthKind);
    CountNone(n, BirthKind);
    CountNone(y, NameKind);
    CountBounded(n, NameKind);
    CountBounded(y, BirthKind);
  }

  /** Both birth years missing (both read as 0) always earns "Birth year +/- 2". */
  lemma MissingYearsEarn(a: Row, b: Row)
    requires a.birthYearNum == 0 && b.birthYearNum == 0
    ensures Has(Rules(FieldsOf(a, b)), BirthYearPm2)
  {
    var s := FieldsOf(a, b);
    var p, n := Penalties(s), NameRule(s);
    assert Rules(s)[|p + n|] == BirthRule(s)[0];
    HasWitness(Rules(s), BirthYearPm2);
  }

  /** Two records agreeing on gender, birth year, birth place, first and
      (present) last name score at least 113: the name chain gives at least
      80 and the birth-year chain at least 33. */
  lemma AgreeingScore(s: Fields)
    requires s.gen70 == s.gen80 && s.by70 == s.by80 && s.bpl70 == s.bpl80
    requires s.last70 == s.last80 && s.first70 == s.first80 && s.last70 != ""
    ensures Total(Rules(s)) >= 113
  {
    var p, n, y, g := Penalties(s), NameRule(s), BirthRule(s), Agreement(s);
    PenaltiesTotal(s);
    TotalAppend(p, n);
    TotalAppend(p + n, y);
    TotalAppend(p + n + y, g);
    AgreementTotal(s);
    TotalSingle(n);
    TotalSingle(y);
  }

  /** A record compared with itself, when it has a last name, lands in tier 1. */
  lemma SelfScore(r: Row)
    requires r.lastName != ""
    ensures CalculateScore(r, r).score >= 113
  {
    var s := FieldsOf(r, r);
    assert s.last70 != "";
    AgreeingScore(s);
  }

  /** The tier cut points of `startScoring` and of the household boost:
      above 90 is tier 1, 80 to 90 tier 2, 60 to 79 tier 3, below 60 none. */
  function TierOf(score: int): (t: int)
    ensures 0 <= t <= 3
    ensures t == 0 <==> score < 60
    ensures t == 1 <==> score > 90
    ensures t == 2 <==> 80 <= score <= 90
    ensures t == 3 <==> 60 <= score < 80
  {
    if score > 90 then 1 else if score >= 80 then 2 else if score >= 60 then 3 else 0
  }

  /** A higher score never gets a worse (higher-numbered) tier. */
  lemma TierMonotone(s: int, s': int)
    ensures s <= s' && TierOf(s) > 0 ==> 0 < TierOf(s') <= TierOf(s)
  {
  }

  /** What `startScoring` keeps: pairs scoring at least 60, with their tier. */
  function Policy(): (p: Blocking.Policy)
    ensures p.floor == 60
  {
    Blocking.Policy(CalculateScore, 60, TierOf)
  }
}
