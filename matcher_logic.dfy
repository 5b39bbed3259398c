/** The stand-alone matcher of `resources/matcher_logic.js`: its block keys,
    its pair scorer (weights differ from the browser application's) and
    `runMatching`, which blocks, scores, resolves one-to-one greedily and
    splits the matches by tier. */
module MatcherLogic {
  import opened Strings
  import opened Census
  import opened Ranking
  import Blocking

  /** The block keys of a record: none when race or gender is missing,
      otherwise up to three keys tagged B1 (NYSIIS last name and normalised
      first name), B2 (normalised first name and birth year) and B3 (last
      name and two-letter birth place), each carrying gender and the
      upper-cased first letter of race. */
  function BlockKeys(r: Row): (keys: seq<string>)
    ensures Upper(Take(r.race, 1)) == "" || Upper(r.gender) == "" ==> keys == []
    ensures |keys| <= 3
    ensures forall i :: 0 <= i < |keys| ==> |keys[i]| >= 3 && keys[i][0] == 'B' && keys[i][2] == ':'
    ensures forall i, j :: 0 <= i < j < |keys| ==> keys[i][1] < keys[j][1]
  {
    var race := Upper(Take(r.race, 1));
    var gender := Upper(r.gender);
    if race == "" || gender == "" then []
    else
      var nysiisLast := Upper(r.nysiisLastName);
      var normFirst := Upper(r.normFirstName);
      var lastName := Upper(Or(r.lastName, r.lastNameUnderscore));
      var birthYear := Or(r.birthYear10, r.birthYear);
      var birthPlace := Take(Upper(r.birthPlace), 2);
      Blocking.KeyIf(nysiisLast != "" && normFirst != "", Blocking.Key('1', [nysiisLast, normFirst, gender, race]))
      + Blocking.KeyIf(normFirst != "" && birthYear != "", Blocking.Key('2', [normFirst, birthYear, gender, race]))
      + Blocking.KeyIf(lastName != "" && birthPlace != "", Blocking.Key('3', [lastName, gender, race, birthPlace]))
  }

  /** Which key families a record with race and gender gets: each one
      exactly when its fields are present. */
  lemma BlockKeysPresent(r: Row)
    requires Take(r.race, 1) != "" && r.gender != ""
    ensures Blocking.HasTag(BlockKeys(r), '1') <==> r.nysiisLastName != "" && r.normFirstName != ""
    ensures Blocking.HasTag(BlockKeys(r), '2') <==> r.normFirstName != "" && Or(r.birthYear10, r.birthYear) != ""
    ensures Blocking.HasTag(BlockKeys(r), '3') <==> Or(r.lastName, r.lastNameUnderscore) != "" && r.birthPlace != ""
  {
    var race := Upper(Take(r.race, 1));
    var gender := Upper(r.gender);
    var nysiisLast := Upper(r.nysiisLastName);
    var normFirst := Upper(r.normFirstName);
    var lastName := Upper(Or(r.lastName, r.lastNameUnderscore));
    var birthYear := Or(r.birthYear10, r.birthYear);
    var birthPlace := Take(Upper(r.birthPlace), 2);
    assert race != "" && gender != "";
    assert nysiisLast != "" <==> r.nysiisLastName != "";
    assert normFirst != "" <==> r.normFirstName != "";
    assert lastName != "" <==> Or(r.lastName, r.lastNameUnderscore) != "";
    assert birthPlace != "" <==> r.birthPlace != "";
    Blocking.TaggedKeys(nysiisLast != "" && normFirst != "", normFirst != "" && birthYear != "", lastName != "" && birthPlace != "",
      Blocking.Key('1', [nysiisLast, normFirst, gender, race]), Blocking.Key('2', [normFirst, birthYear, gender, race]),
      Blocking.Key('3', [lastName, gender, race, birthPlace]));
  }

  /** No record gets the same block key twice. */
  lemma BlockKeysDistinct()
    ensures Blocking.DistinctKeys(BlockKeys)
  {
    forall r: Row ensures Blocking.NoDup(BlockKeys(r)) {
      var keys := BlockKeys(r);
      forall i, j | 0 <= i < j < |keys| ensures keys[i] != keys[j] {
        assert keys[i][1] < keys[j][1];
      }
    }
  }

  /** The 1880 fix-up before keying: an empty `last_name` is taken from the
      misspelt `last-_name` column; nothing else in the row changes. */
  function FixLastName(r: Row): (r': Row)
    ensures r' == r.(lastName := r'.lastName)
    ensures r'.lastName == if r.lastName == "" then r.lastNameTypo else r.lastName
  {
    if r.lastName == "" && r.lastNameTypo != "" then r.(lastName := r.lastNameTypo) else r
  }

  /** Every 1880 row after the fix-up. */
  function FixAll(rows: seq<Row>): (fs: seq<Row>)
    ensures |fs| == |rows|
  {
    MapEach(rows, FixLastName)
  }

  /** Row `i` of the fixed census is row `i` fixed up. */
  lemma FixAllIndex(rows: seq<Row>)
    ensures forall i :: 0 <= i < |rows| ==> FixAll(rows)[i] == FixLastName(rows[i])
  {
    MapEachIndex(rows, FixLastName);
  }

  /** Fixing one more row of a prefix appends its fixed form. */
  lemma FixAllStep(rows: seq<Row>, i: nat)
    requires i < |rows|
    ensures FixAll(rows[..i + 1]) == FixAll(rows[..i]) + [FixLastName(rows[i])]
  {
    assert rows[..i + 1][..i] == rows[..i];
  }

  /** The rules of `calculateScore`, one constructor per `details` label. */
  datatype Kind =
    | GenderMismatch | AgeRegression | ContradictoryBirthPlace
    | ExactLast | ExactFirst | ExactMiddle | ExactBirthYear
    | AgeDiff9to11 | AgeDiff8to12
    | GenderMatch | RaceMatch | BirthPlaceMatch
    | NysiisLast | NormFirst | BirthDate10 | OccupationMatch
    | FuzzyLast | FuzzyFirst
    | BirthYearPm2 | BirthYearPm5
    | RaceBM

  function Abs(x: int): nat {
    if x < 0 then -x else x
  }

  /** The fields `calculateScore` compares (its object `s`), with the two
      similarity values the fuzzy rules test. `normFirst70/80` are the raw
      `norm_first_name` values, which the code compares without upper-casing
      and without requiring them to be present. */
  datatype Fields = Fields(
    last70: string, last80: string, first70: string, first80: string, mid70: string, mid80: string,
    age70: int, age80: int, by70: int, by80: int,
    gen70: string, gen80: string, race70: string, race80: string, bpl70: string, bpl80: string,
    nyLast70: string, nyLast80: string, normFirst70: string, normFirst80: string,
    by10For70: string, by10For80: string, occ70: string, occ80: string,
    jwLast: real, jwFirst: real)

  function FieldsOf(a: Row, b: Row, jw: Similarity): (s: Fields)
    ensures s.gen70 == Upper(a.gender) && s.gen80 == Upper(b.gender)
    ensures s.normFirst70 == a.normFirstName && s.normFirst80 == b.normFirstName
  {
    var last70, last80 := Upper(a.lastName), Upper(b.lastName);
    var first70, first80 := Upper(a.firstName), Upper(b.firstName);
    Fields(last70, last80, first70, first80, Upper(a.middleName), Upper(b.middleName),
           a.ageNum, b.ageNum, a.birthYearNum, b.birthYearNum,
           Upper(a.gender), Upper(b.gender), Upper(a.race), Upper(b.race), Upper(a.birthPlace), Upper(b.birthPlace),
           Upper(a.nysiisLastName), Upper(b.nysiisLastName), a.normFirstName, b.normFirstName,
           a.birthYear10, b.birthYear10, Upper(a.normOccupation), Upper(b.normOccupation),
           jw(last70, last80), jw(first70, first80))
  }


  /** The outcome of every test `calculateScore` makes on its object `s`
      and on the two similarity values. */
  datatype Tests = Tests(
    genderDiffers: bool,       // gen70 !== gen80
    regression: bool,          // age80 < age70
    contradicts: bool,         // both birth places present, neither VA, and they differ
    lastEqual: bool, firstEqual: bool, midEqual: bool, // equal and present
    yearEqual: bool,           // |by70 - by80| === 0 and by70 is not 0
    age9to11: bool, age8to12: bool,                    // on age80 - age70
    raceEqual: bool,           // race70 === race80, present or not
    birthPlaceEqual: bool, nysiisLastEqual: bool,      // equal and present
    normFirstEqual: bool,      // the raw norm_first_name values are equal
    birthYear10Equal: bool, occupationEqual: bool,     // equal and present
    jwLast: real, lastDiffers: bool, jwFirst: real, firstDiffers: bool,
    near2: bool, near5: bool,  // |by70 - by80| in 1..2 and in 3..5
    raceBM: bool)              // one race is B and the other M

  /** `x === y`. */
  predicate Same(x: string, y: string) { x == y }
  /** `x === y && x`: equal and present. */
  predicate Agree(x: string, y: string) { x == y && x != "" }
  /** Both birth places present, neither is VA, and they differ. */
  predicate Contradicts(x: string, y: string) { x != "" && y != "" && x != "VA" && y != "VA" && x != y }
  /** One race is B and the other M. */
  predicate BlackMulatto(x: string, y: string) { (x == "B" && y == "M") || (x == "M" && y == "B") }

  /** What the tests of any one pair have in common: an equal name does not
      also differ, equal races are not the B/M pair, and an exact birth year
      is not also a near one. */
  predicate Coherent(t: Tests) {
    && (t.lastEqual ==> !t.lastDiffers)
    && (t.firstEqual ==> !t.firstDiffers)
    && (t.raceEqual ==> !t.raceBM)
    && (t.yearEqual ==> !t.near2 && !t.near5)
  }

  function TestsOf(s: Fields): (t: Tests)
    ensures Coherent(t)
  {
    var ageDiff := s.age80 - s.age70;
    var byDiff := Abs(s.by70 - s.by80);
    Tests(!Same(s.gen70, s.gen80), s.age80 < s.age70, Contradicts(s.bpl70, s.bpl80),
          Agree(s.last70, s.last80), Agree(s.first70, s.first80), Agree(s.mid70, s.mid80),
          byDiff == 0 && s.by70 != 0,
          9 <= ageDiff <= 11, 8 <= ageDiff <= 12,
          Same(s.race70, s.race80), Agree(s.bpl70, s.bpl80), Agree(s.nyLast70, s.nyLast80),
          Same(s.normFirst70, s.normFirst80), Agree(s.by10For70, s.by10For80), Agree(s.occ70, s.occ80),
          s.jwLast, !Same(s.last70, s.last80), s.jwFirst, !Same(s.first70, s.first80),
          0 < byDiff <= 2, 2 < byDiff <= 5,
          BlackMulatto(s.race70, s.race80))
  }

  /** `Fuzzy <what> ${jw.toFixed(2)} (+8)`; the rule only fires with jw at least 0.85. */
  function FuzzyLabel(what: string, x: real): string {
    "Fuzzy " + what + " " + (if x >= 0.0 then Fixed2(x) else "") + " (+8)"
  }

  /** The PENALTIES section. */
  function Penalties(genderDiffers: bool, regression: bool, contradicts: bool): seq<Check<Kind>> {
    Rule(genderDiffers, GenderMismatch, "Gender mismatch (-50)", -50)
    + Rule(regression, AgeRegression, "Age regression (-30)", -30)
    + Rule(contradicts, ContradictoryBirthPlace, "Contradictory birth place (-15)", -15)
  }

  /** The four exact agreements. */
  function Exact(last: bool, first: bool, middle: bool, year: bool): seq<Check<Kind>> {
    Rule(last, ExactLast, "Exact last (+15)", 15)
    + Rule(first, ExactFirst, "Exact first (+15)", 15)
    + Rule(middle, ExactMiddle, "Exact middle (+8)", 8)
    + Rule(year, ExactBirthYear, "Exact birth year (+10)", 10)
  }

  /** The `else if` chain on the actual age difference. */
  function AgeRule(age9to11: bool, age8to12: bool): seq<Check<Kind>> {
    Rule(age9to11, AgeDiff9to11, "Age diff 9-11 (+10)", 10)
    + Rule(!age9to11 && age8to12, AgeDiff8to12, "Age diff 8-12 (+6)", 6)
  }

  /** Gender, race and birth-place agreement. */
  function Agreement(genderDiffers: bool, race: bool, birthPlace: bool): seq<Check<Kind>> {
    Rule(!genderDiffers, GenderMatch, "Gender match (+10)", 10)
    + Rule(race, RaceMatch, "Race match (+8)", 8)
    + Rule(birthPlace, BirthPlaceMatch, "Birth place match (+12)", 12)
  }

  /** The FINDING AID section. */
  function FindingAid(nysiisLast: bool, normFirst: bool, birthYear10: bool, occupation: bool): seq<Check<Kind>> {
    Rule(nysiisLast, NysiisLast, "NYSIIS last (+10)", 10)
    + Rule(normFirst, NormFirst, "Norm first (+8)", 8)
    + Rule(birthYear10, BirthDate10, "Birth date 10 (+7)", 7)
    + Rule(occupation, OccupationMatch, "Occupation match (+5)", 5)
  }

  /** The two similarity rules, which fire only for names that differ. */
  function FuzzyNames(jwLast: real, lastDiffers: bool, jwFirst: real, firstDiffers: bool): seq<Check<Kind>> {
    Rule(jwLast >= 0.85 && lastDiffers, FuzzyLast, FuzzyLabel("last", jwLast), 8)
    + Rule(jwFirst >= 0.85 && firstDiffers, FuzzyFirst, FuzzyLabel("first", jwFirst), 8)
  }

  /** The `else if` chain on the birth-year difference. */
  function BirthRule(near2: bool, near5: bool): seq<Check<Kind>> {
    Rule(near2, BirthYearPm2, "Birth year ±2 (+7)", 7)
    + Rule(!near2 && near5, BirthYearPm5, "Birth year ±5 (+4)", 4)
  }

  /** The equivalence of races B and M. */
  function RaceBMRule(raceBM: bool): seq<Check<Kind>> {
    Rule(raceBM, RaceBM, "Race B/M (+6)", 6)
  }

  /** The HIGH VALUE EXACT section: the exact agreements, the age chain and
      gender, race and birth-place agreement. */
  function HighValue(last: bool, first: bool, middle: bool, year: bool, age9to11: bool, age8to12: bool, genderDiffers: bool, race: bool, birthPlace: bool): seq<Check<Kind>> {
    Exact(last, first, middle, year) + AgeRule(age9to11, age8to12) + Agreement(genderDiffers, race, birthPlace)
  }

  /** The FUZZY section: similar names, near birth years and races B/M. */
  function Fuzzy(jwLast: real, lastDiffers: bool, jwFirst: real, firstDiffers: bool, near2: bool, near5: bool, raceBM: bool): seq<Check<Kind>> {
    FuzzyNames(jwLast, lastDiffers, jwFirst, firstDiffers) + BirthRule(near2, near5) + RaceBMRule(raceBM)
  }

  /** The rules that fire for a pair, in the order `calculateScore` tests them. */
  function Rules(t: Tests): seq<Check<Kind>> {
    Join4(Penalties(t.genderDiffers, t.regression, t.contradicts),
          HighValue(t.lastEqual, t.firstEqual, t.midEqual, t.yearEqual, t.age9to11, t.age8to12, t.genderDiffers, t.raceEqual, t.birthPlaceEqual),
          FindingAid(t.nysiisLastEqual, t.normFirstEqual, t.birthYear10Equal, t.occupationEqual),
          Fuzzy(t.jwLast, t.lastDiffers, t.jwFirst, t.firstDiffers, t.near2, t.near5, t.raceBM))
  }

  function Join4(a: seq<Check<Kind>>, b: seq<Check<Kind>>, c: seq<Check<Kind>>, d: seq<Check<Kind>>): seq<Check<Kind>> {
    a + b + c + d
  }

  lemma Join4Facts(a: seq<Check<Kind>>, b: seq<Check<Kind>>, c: seq<Check<Kind>>, d: seq<Check<Kind>>, k: Kind)
    ensures Has(Join4(a, b, c, d), k) <==> Has(a, k) || Has(b, k) || Has(c, k) || Has(d, k)
    ensures Total(Join4(a, b, c, d)) == Total(a) + Total(b) + Total(c) + Total(d)
  {
    HasAppend(a, b, k); HasAppend(a + b, c, k); HasAppend(a + b + c, d, k);
    TotalAppend(a, b); TotalAppend(a + b, c); TotalAppend(a + b + c, d);
  }

  /** The points `n` when the condition holds, else 0. */
  function Pts(c: bool, n: int): int {
    if c then n else 0
  }

  predicate PenaltiesFire(genderDiffers: bool, regression: bool, contradicts: bool, k: Kind) {
    (k == GenderMismatch && genderDiffers) || (k == AgeRegression && regression) || (k == ContradictoryBirthPlace && contradicts)
  }

  lemma PenaltiesFires(genderDiffers: bool, regression: bool, contradicts: bool, k: Kind)
    ensures Has(Penalties(genderDiffers, regression, contradicts), k) <==> PenaltiesFire(genderDiffers, regression, contradicts, k)
  {
    var r1 := Rule(genderDiffers, GenderMismatch, "Gender mismatch (-50)", -50);
    var r2 := Rule(regression, AgeRegression, "Age regression (-30)", -30);
    var r3 := Rule(contradicts, ContradictoryBirthPlace, "Contradictory birth place (-15)", -15);
    RuleFacts(genderDiffers, GenderMismatch, "Gender mismatch (-50)", -50, k);
    RuleFacts(regression, AgeRegression, "Age regression (-30)", -30, k);
    RuleFacts(contradicts, ContradictoryBirthPlace, "Contradictory birth place (-15)", -15, k);
    HasAppend(r1, r2, k);
    HasAppend(r1 + r2, r3, k);
  }

  function PenaltiesPoints(genderDiffers: bool, regression: bool, contradicts: bool): int {
    Pts(genderDiffers, -50) + Pts(regression, -30) + Pts(contradicts, -15)
  }

  lemma PenaltiesTotal(genderDiffers: bool, regression: bool, contradicts: bool)
    ensures Total(Penalties(genderDiffers, regression, contradicts)) == PenaltiesPoints(genderDiffers, regression, contradicts)
  {
    var r1 := Rule(genderDiffers, GenderMismatch, "Gender mismatch (-50)", -50);
    var r2 := Rule(regression, AgeRegression, "Age regression (-30)", -30);
    var r3 := Rule(contradicts, ContradictoryBirthPlace, "Contradictory birth place (-15)", -15);
    RuleFacts(genderDiffers, GenderMismatch, "Gender mismatch (-50)", -50, GenderMismatch);
    RuleFacts(regression, AgeRegression, "Age regression (-30)", -30, GenderMismatch);
    RuleFacts(contradicts, ContradictoryBirthPlace, "Contradictory birth place (-15)", -15, GenderMismatch);
    TotalAppend(r1, r2);
    TotalAppend(r1 + r2, r3);
  }

  lemma ExactFires(last: bool, first: bool, middle: bool, year: bool, k: Kind)
    ensures Has(Exact(last, first, middle, year), k) <==>
      (k == ExactLast && last) || (k == ExactFirst && first) || (k == ExactMiddle && middle) || (k == ExactBirthYear && year)
  {
    var r1 := Rule(last, ExactLast, "Exact last (+15)", 15);
    var r2 := Rule(first, ExactFirst, "Exact first (+15)", 15);
    var r3 := Rule(middle, ExactMiddle, "Exact middle (+8)", 8);
    var r4 := Rule(year, ExactBirthYear, "Exact birth year (+10)", 10);
    RuleFacts(last, ExactLast, "Exact last (+15)", 15, k);
    RuleFacts(first, ExactFirst, "Exact first (+15)", 15, k);
    RuleFacts(middle, ExactMiddle, "Exact middle (+8)", 8, k);
    RuleFacts(year, ExactBirthYear, "Exact birth year (+10)", 10, k);
    HasAppend(r1, r2, k);
    HasAppend(r1 + r2, r3, k);
    HasAppend(r1 + r2 + r3, r4, k);
  }

  lemma ExactTotal(last: bool, first: bool, middle: bool, year: bool)
    ensures Total(Exact(last, first, middle, year)) ==
      Pts(last, 15) + Pts(first, 15) + Pts(middle, 8) + Pts(year, 10)
  {
    var r1 := Rule(last, ExactLast, "Exact last (+15)", 15);
    var r2 := Rule(first, ExactFirst, "Exact first (+15)", 15);
    var r3 := Rule(middle, ExactMiddle, "Exact middle (+8)", 8);
    var r4 := Rule(year, ExactBirthYear, "Exact birth year (+10)", 10);
    RuleFacts(last, ExactLast, "Exact last (+15)", 15, GenderMismatch);
    RuleFacts(first, ExactFirst, "Exact first (+15)", 15, GenderMismatch);
    RuleFacts(middle, ExactMiddle, "Exact middle (+8)", 8, GenderMismatch);
    RuleFacts(year, ExactBirthYear, "Exact birth year (+10)", 10, GenderMismatch);
    TotalAppend(r1, r2);
    TotalAppend(r1 + r2, r3);
    TotalAppend(r1 + r2 + r3, r4);
  }

  lemma AgeRuleFires(age9to11: bool, age8to12: bool, k: Kind)
    ensures Has(AgeRule(age9to11, age8to12), k) <==>
      (k == AgeDiff9to11 && age9to11) || (k == AgeDiff8to12 && (!age9to11 && age8to12))
  {
    RuleFacts(age9to11, AgeDiff9to11, "Age diff 9-11 (+10)", 10, k);
    RuleFacts(!age9to11 && age8to12, AgeDiff8to12, "Age diff 8-12 (+6)", 6, k);
    HasAppend(Rule(age9to11, AgeDiff9to11, "Age diff 9-11 (+10)", 10), Rule(!age9to11 && age8to12, AgeDiff8to12, "Age diff 8-12 (+6)", 6), k);
  }

  lemma AgeRuleTotal(age9to11: bool, age8to12: bool)
    ensures Total(AgeRule(age9to11, age8to12)) ==
      Pts(age9to11, 10) + Pts(!age9to11 && age8to12, 6)
  {
    RuleFacts(age9to11, AgeDiff9to11, "Age diff 9-11 (+10)", 10, AgeDiff9to11);
    RuleFacts(!age9to11 && age8to12, AgeDiff8to12, "Age diff 8-12 (+6)", 6, AgeDiff9to11);
    TotalAppend(Rule(age9to11, AgeDiff9to11, "Age diff 9-11 (+10)", 10), Rule(!age9to11 && age8to12, AgeDiff8to12, "Age diff 8-12 (+6)", 6));
  }

  lemma AgreementFires(genderDiffers: bool, race: bool, birthPlace: bool, k: Kind)
    ensures Has(Agreement(genderDiffers, race, birthPlace), k) <==>
      (k == GenderMatch && !genderDiffers) || (k == RaceMatch && race) || (k == BirthPlaceMatch && birthPlace)
  {
    var r1 := Rule(!genderDiffers, GenderMatch, "Gender match (+10)", 10);
    var r2 := Rule(race, RaceMatch, "Race match (+8)", 8);
    var r3 := Rule(birthPlace, BirthPlaceMatch, "Birth place match (+12)", 12);
    RuleFacts(!genderDiffers, GenderMatch, "Gender match (+10)", 10, k);
    RuleFacts(race, RaceMatch, "Race match (+8)", 8, k);
    RuleFacts(birthPlace, BirthPlaceMatch, "Birth place match (+12)", 12, k);
    HasAppend(r1, r2, k);
    HasAppend(r1 + r2, r3, k);
  }

  lemma AgreementTotal(genderDiffers: bool, race: bool, birthPlace: bool)
    ensures Total(Agreement(genderDiffers, race, birthPlace)) ==
      Pts(!genderDiffers, 10) + Pts(race, 8) + Pts(birthPlace, 12)
  {
    var r1 := Rule(!genderDiffers, GenderMatch, "Gender match (+10)", 10);
    var r2 := Rule(race, RaceMatch, "Race match (+8)", 8);
    var r3 := Rule(birthPlace, BirthPlaceMatch, "Birth place match (+12)", 12);
    RuleFacts(!genderDiffers, GenderMatch, "Gender match (+10)", 10, GenderMismatch);
    RuleFacts(race, RaceMatch, "Race match (+8)", 8, GenderMismatch);
    RuleFacts(birthPlace, BirthPlaceMatch, "Birth place match (+12)", 12, GenderMismatch);
    TotalAppend(r1, r2);
    TotalAppend(r1 + r2, r3);
  }

  predicate FindingAidFire(nysiisLast: bool, normFirst: bool, birthYear10: bool, occupation: bool, k: Kind) {
    (k == NysiisLast && nysiisLast) || (k == NormFirst && normFirst) || (k == BirthDate10 && birthYear10) || (k == OccupationMatch && occupation)
  }

  lemma FindingAidFires(nysiisLast: bool, normFirst: bool, birthYear10: bool, occupation: bool, k: Kind)
    ensures Has(FindingAid(nysiisLast, normFirst, birthYear10, occupation), k) <==> FindingAidFire(nysiisLast, normFirst, birthYear10, occupation, k)
  {
    var r1 := Rule(nysiisLast, NysiisLast, "NYSIIS last (+10)", 10);
    var r2 := Rule(normFirst, NormFirst, "Norm first (+8)", 8);
    var r3 := Rule(birthYear10, BirthDate10, "Birth date 10 (+7)", 7);
    var r4 := Rule(occupation, OccupationMatch, "Occupation match (+5)", 5);
    RuleFacts(nysiisLast, NysiisLast, "NYSIIS last (+10)", 10, k);
    RuleFacts(normFirst, NormFirst, "Norm first (+8)", 8, k);
    RuleFacts(birthYear10, BirthDate10, "Birth date 10 (+7)", 7, k);
    RuleFacts(occupation, OccupationMatch, "Occupation match (+5)", 5, k);
    HasAppend(r1, r2, k);
    HasAppend(r1 + r2, r3, k);
    HasAppend(r1 + r2 + r3, r4, k);
  }

  function FindingAidPoints(nysiisLast: bool, normFirst: bool, birthYear10: bool, occupation: bool): int {
    Pts(nysiisLast, 10) + Pts(normFirst, 8) + Pts(birthYear10, 7) + Pts(occupation, 5)
  }

  lemma FindingAidTotal(nysiisLast: bool, normFirst: bool, birthYear10: bool, occupation: bool)
    ensures Total(FindingAid(nysiisLast, normFirst, birthYear10, occupation)) == FindingAidPoints(nysiisLast, normFirst, birthYear10, occupation)
  {
    var r1 := Rule(nysiisLast, NysiisLast, "NYSIIS last (+10)", 10);
    var r2 := Rule(normFirst, NormFirst, "Norm first (+8)", 8);
    var r3 := Rule(birthYear10, BirthDate10, "Birth date 10 (+7)", 7);
    var r4 := Rule(occupation, OccupationMatch, "Occupation match (+5)", 5);
    RuleFacts(nysiisLast, NysiisLast, "NYSIIS last (+10)", 10, GenderMismatch);
    RuleFacts(normFirst, NormFirst, "Norm first (+8)", 8, GenderMismatch);
    RuleFacts(birthYear10, BirthDate10, "Birth date 10 (+7)", 7, GenderMismatch);
    RuleFacts(occupation, OccupationMatch, "Occupation match (+5)", 5, GenderMismatch);
    TotalAppend(r1, r2);
    TotalAppend(r1 + r2, r3);
    TotalAppend(r1 + r2 + r3, r4);
  }

  lemma FuzzyNamesFires(jwLast: real, lastDiffers: bool, jwFirst: real, firstDiffers: bool, k: Kind)
    ensures Has(FuzzyNames(jwLast, lastDiffers, jwFirst, firstDiffers), k) <==>
      (k == FuzzyLast && (jwLast >= 0.85 && lastDiffers)) || (k == FuzzyFirst && (jwFirst >= 0.85 && firstDiffers))
  {
    var r1 := Rule(jwLast >= 0.85 && lastDiffers, FuzzyLast, FuzzyLabel("last", jwLast), 8);
    var r2 := Rule(jwFirst >= 0.85 && firstDiffers, FuzzyFirst, FuzzyLabel("first", jwFirst), 8);
    RuleFacts(jwLast >= 0.85 && lastDiffers, FuzzyLast, FuzzyLabel("last", jwLast), 8, k);
    RuleFacts(jwFirst >= 0.85 && firstDiffers, FuzzyFirst, FuzzyLabel("first", jwFirst), 8, k);
    HasAppend(r1, r2, k);
  }

  lemma FuzzyNamesTotal(jwLast: real, lastDiffers: bool, jwFirst: real, firstDiffers: bool)
    ensures Total(FuzzyNames(jwLast, lastDiffers, jwFirst, firstDiffers)) ==
      Pts(jwLast >= 0.85 && lastDiffers, 8) + Pts(jwFirst >= 0.85 && firstDiffers, 8)
  {
    var r1 := Rule(jwLast >= 0.85 && lastDiffers, FuzzyLast, FuzzyLabel("last", jwLast), 8);
    var r2 := Rule(jwFirst >= 0.85 && firstDiffers, FuzzyFirst, FuzzyLabel("first", jwFirst), 8);
    RuleFacts(jwLast >= 0.85 && lastDiffers, FuzzyLast, FuzzyLabel("last", jwLast), 8, GenderMismatch);
    RuleFacts(jwFirst >= 0.85 && firstDiffers, FuzzyFirst, FuzzyLabel("first", jwFirst), 8, GenderMismatch);
    TotalAppend(r1, r2);
  }

  lemma BirthRuleFires(near2: bool, near5: bool, k: Kind)
    ensures Has(BirthRule(near2, near5), k) <==>
      (k == BirthYearPm2 && near2) || (k == BirthYearPm5 && (!near2 && near5))
  {
    RuleFacts(near2, BirthYearPm2, "Birth year ±2 (+7)", 7, k);
    RuleFacts(!near2 && near5, BirthYearPm5, "Birth year ±5 (+4)", 4, k);
    HasAppend(Rule(near2, BirthYearPm2, "Birth year ±2 (+7)", 7), Rule(!near2 && near5, BirthYearPm5, "Birth year ±5 (+4)", 4), k);
  }

  lemma BirthRuleTotal(near2: bool, near5: bool)
    ensures Total(BirthRule(near2, near5)) ==
      Pts(near2, 7) + Pts(!near2 && near5, 4)
  {
    RuleFacts(near2, BirthYearPm2, "Birth year ±2 (+7)", 7, BirthYearPm2);
    RuleFacts(!near2 && near5, BirthYearPm5, "Birth year ±5 (+4)", 4, BirthYearPm2);
    TotalAppend(Rule(near2, BirthYearPm2, "Birth year ±2 (+7)", 7), Rule(!near2 && near5, BirthYearPm5, "Birth year ±5 (+4)", 4));
  }

  lemma RaceBMRuleFires(raceBM: bool, k: Kind)
    ensures Has(RaceBMRule(raceBM), k) <==>
      (k == RaceBM && raceBM)
  {
    RuleFacts(raceBM, RaceBM, "Race B/M (+6)", 6, k);
  }

  lemma RaceBMRuleTotal(raceBM: bool)
    ensures Total(RaceBMRule(raceBM)) ==
      Pts(raceBM, 6)
  {
    RuleFacts(raceBM, RaceBM, "Race B/M (+6)", 6, GenderMismatch);
  }

  predicate HighValueFire(last: bool, first: bool, middle: bool, year: bool, age9to11: bool, age8to12: bool, genderDiffers: bool, race: bool, birthPlace: bool, k: Kind) {
    (k == ExactLast && last) || (k == ExactFirst && first) || (k == ExactMiddle && middle) || (k == ExactBirthYear && year) || (k == AgeDiff9to11 && age9to11) || (k == AgeDiff8to12 && (!age9to11 && age8to12)) || (k == GenderMatch && !genderDiffers) || (k == RaceMatch && race) || (k == BirthPlaceMatch && birthPlace)
  }

  lemma HighValueFires(last: bool, first: bool, middle: bool, year: bool, age9to11: bool, age8to12: bool, genderDiffers: bool, race: bool, birthPlace: bool, k: Kind)
    ensures Has(HighValue(last, first, middle, year, age9to11, age8to12, genderDiffers, race, birthPlace), k) <==> HighValueFire(last, first, middle, year, age9to11, age8to12, genderDiffers, race, birthPlace, k)
  {
    var g1 := Exact(last, first, middle, year);
    var g2 := AgeRule(age9to11, age8to12);
    var g3 := Agreement(genderDiffers, race, birthPlace);
    ExactFires(last, first, middle, year, k);
    AgeRuleFires(age9to11, age8to12, k);
    AgreementFires(genderDiffers, race, birthPlace, k);
    HasAppend(g1, g2, k);
    HasAppend(g1 + g2, g3, k);
  }

  function HighValuePoints(last: bool, first: bool, middle: bool, year: bool, age9to11: bool, age8to12: bool, genderDiffers: bool, race: bool, birthPlace: bool): int {
    Pts(last, 15) + Pts(first, 15) + Pts(middle, 8) + Pts(year, 10) + Pts(age9to11, 10) + Pts(!age9to11 && age8to12, 6) + Pts(!genderDiffers, 10) + Pts(race, 8) + Pts(birthPlace, 12)
  }

  lemma HighValueTotal(last: bool, first: bool, middle: bool, year: bool, age9to11: bool, age8to12: bool, genderDiffers: bool, race: bool, birthPlace: bool)
    ensures Total(HighValue(last, first, middle, year, age9to11, age8to12, genderDiffers, race, birthPlace)) == HighValuePoints(last, first, middle, year, age9to11, age8to12, genderDiffers, race, birthPlace)
  {
    var g1 := Exact(last, first, middle, year);
    var g2 := AgeRule(age9to11, age8to12);
    var g3 := Agreement(genderDiffers, race, birthPlace);
    ExactTotal(last, first, middle, year);
    AgeRuleTotal(age9to11, age8to12);
    AgreementTotal(genderDiffers, race, birthPlace);
    TotalAppend(g1, g2);
    TotalAppend(g1 + g2, g3);
  }

  predicate FuzzyFire(jwLast: real, lastDiffers: bool, jwFirst: real, firstDiffers: bool, near2: bool, near5: bool, raceBM: bool, k: Kind) {
    (k == FuzzyLast && (jwLast >= 0.85 && lastDiffers)) || (k == FuzzyFirst && (jwFirst >= 0.85 && firstDiffers)) || (k == BirthYearPm2 && near2) || (k == BirthYearPm5 && (!near2 && near5)) || (k == RaceBM && raceBM)
  }

  lemma FuzzyFires(jwLast: real, lastDiffers: bool, jwFirst: real, firstDiffers: bool, near2: bool, near5: bool, raceBM: bool, k: Kind)
    ensures Has(Fuzzy(jwLast, lastDiffers, jwFirst, firstDiffers, near2, near5, raceBM), k) <==> FuzzyFire(jwLast, lastDiffers, jwFirst, firstDiffers, near2, near5, raceBM, k)
  {
    var g1 := FuzzyNames(jwLast, lastDiffers, jwFirst, firstDiffers);
    var g2 := BirthRule(near2, near5);
    var g3 := RaceBMRule(raceBM);
    FuzzyNamesFires(jwLast, lastDiffers, jwFirst, firstDiffers, k);
    BirthRuleFires(near2, near5, k);
    RaceBMRuleFires(raceBM, k);
    HasAppend(g1, g2, k);
    HasAppend(g1 + g2, g3, k);
  }

  function FuzzyPoints(jwLast: real, lastDiffers: bool, jwFirst: real, firstDiffers: bool, near2: bool, near5: bool, raceBM: bool): int {
    Pts(jwLast >= 0.85 && lastDiffers, 8) + Pts(jwFirst >= 0.85 && firstDiffers, 8) + Pts(near2, 7) + Pts(!near2 && near5, 4) + Pts(raceBM, 6)
  }

  lemma FuzzyTotal(jwLast: real, lastDiffers: bool, jwFirst: real, firstDiffers: bool, near2: bool, near5: bool, raceBM: bool)
    ensures Total(Fuzzy(jwLast, lastDiffers, jwFirst, firstDiffers, near2, near5, raceBM)) == FuzzyPoints(jwLast, lastDiffers, jwFirst, firstDiffers, near2, near5, raceBM)
  {
    var g1 := FuzzyNames(jwLast, lastDiffers, jwFirst, firstDiffers);
    var g2 := BirthRule(near2, near5);
    var g3 := RaceBMRule(raceBM);
    FuzzyNamesTotal(jwLast, lastDiffers, jwFirst, firstDiffers);
    BirthRuleTotal(near2, near5);
    RaceBMRuleTotal(raceBM);
    TotalAppend(g1, g2);
    TotalAppend(g1 + g2, g3);
  }

  /** A rule of kind `k` fired in one of the four sections, that is, in
      `Rules(t)` (`Join4Facts`). */
  predicate Fired(t: Tests, k: Kind) {
    || Has(Penalties(t.genderDiffers, t.regression, t.contradicts), k)
    || Has(HighValue(t.lastEqual, t.firstEqual, t.midEqual, t.yearEqual, t.age9to11, t.age8to12, t.genderDiffers, t.raceEqual, t.birthPlaceEqual), k)
    || Has(FindingAid(t.nysiisLastEqual, t.normFirstEqual, t.birthYear10Equal, t.occupationEqual), k)
    || Has(Fuzzy(t.jwLast, t.lastDiffers, t.jwFirst, t.firstDiffers, t.near2, t.near5, t.raceBM), k)
  }

  /** The condition of the rule of kind `k` holds. */
  predicate Holds(t: Tests, k: Kind) {
    || PenaltiesFire(t.genderDiffers, t.regression, t.contradicts, k)
    || HighValueFire(t.lastEqual, t.firstEqual, t.midEqual, t.yearEqual, t.age9to11, t.age8to12, t.genderDiffers, t.raceEqual, t.birthPlaceEqual, k)
    || FindingAidFire(t.nysiisLastEqual, t.normFirstEqual, t.birthYear10Equal, t.occupationEqual, k)
    || FuzzyFire(t.jwLast, t.lastDiffers, t.jwFirst, t.firstDiffers, t.near2, t.near5, t.raceBM, k)
  }

  /** Section by section, a rule fires exactly when its condition holds. */
  lemma SectionsFire(t: Tests, k: Kind)
    ensures (Has(Penalties(t.genderDiffers, t.regression, t.contradicts), k)
         || Has(HighValue(t.lastEqual, t.firstEqual, t.midEqual, t.yearEqual, t.age9to11, t.age8to12, t.genderDiffers, t.raceEqual, t.birthPlaceEqual), k)
         || Has(FindingAid(t.nysiisLastEqual, t.normFirstEqual, t.birthYear10Equal, t.occupationEqual), k)
         || Has(Fuzzy(t.jwLast, t.lastDiffers, t.jwFirst, t.firstDiffers, t.near2, t.near5, t.raceBM), k))
      <==> (PenaltiesFire(t.genderDiffers, t.regression, t.contradicts, k)
         || HighValueFire(t.lastEqual, t.firstEqual, t.midEqual, t.yearEqual, t.age9to11, t.age8to12, t.genderDiffers, t.raceEqual, t.birthPlaceEqual, k)
         || FindingAidFire(t.nysiisLastEqual, t.normFirstEqual, t.birthYear10Equal, t.occupationEqual, k)
         || FuzzyFire(t.jwLast, t.lastDiffers, t.jwFirst, t.firstDiffers, t.near2, t.near5, t.raceBM, k))
  {
    PenaltiesFires(t.genderDiffers, t.regression, t.contradicts, k);
    HighValueFires(t.lastEqual, t.firstEqual, t.midEqual, t.yearEqual, t.age9to11, t.age8to12, t.genderDiffers, t.raceEqual, t.birthPlaceEqual, k);
    FindingAidFires(t.nysiisLastEqual, t.normFirstEqual, t.birthYear10Equal, t.occupationEqual, k);
    FuzzyFires(t.jwLast, t.lastDiffers, t.jwFirst, t.firstDiffers, t.near2, t.near5, t.raceBM, k);
  }

  /** A rule fires for a pair exactly when its condition holds. */
  lemma RulesFire(t: Tests, k: Kind)
    ensures Fired(t, k) <==> Holds(t, k)
  {
    SectionsFire(t, k);
  }

  /** The score is the sum of the points of the rules whose condition holds. */
  lemma {:induction false} RulesTotal(t: Tests)
    ensures Total(Rules(t)) == PenaltiesPoints(t.genderDiffers, t.regression, t.contradicts) + HighValuePoints(t.lastEqual, t.firstEqual, t.midEqual, t.yearEqual, t.age9to11, t.age8to12, t.genderDiffers, t.raceEqual, t.birthPlaceEqual) + FindingAidPoints(t.nysiisLastEqual, t.normFirstEqual, t.birthYear10Equal, t.occupationEqual) + FuzzyPoints(t.jwLast, t.lastDiffers, t.jwFirst, t.firstDiffers, t.near2, t.near5, t.raceBM)
  {
    var p := Penalties(t.genderDiffers, t.regression, t.contradicts);
    var x := HighValue(t.lastEqual, t.firstEqual, t.midEqual, t.yearEqual, t.age9to11, t.age8to12, t.genderDiffers, t.raceEqual, t.birthPlaceEqual);
    var f := FindingAid(t.nysiisLastEqual, t.normFirstEqual, t.birthYear10Equal, t.occupationEqual);
    var z := Fuzzy(t.jwLast, t.lastDiffers, t.jwFirst, t.firstDiffers, t.near2, t.near5, t.raceBM);
    PenaltiesTotal(t.genderDiffers, t.regression, t.contradicts);
    HighValueTotal(t.lastEqual, t.firstEqual, t.midEqual, t.yearEqual, t.age9to11, t.age8to12, t.genderDiffers, t.raceEqual, t.birthPlaceEqual);
    FindingAidTotal(t.nysiisLastEqual, t.normFirstEqual, t.birthYear10Equal, t.occupationEqual);
    FuzzyTotal(t.jwLast, t.lastDiffers, t.jwFirst, t.firstDiffers, t.near2, t.near5, t.raceBM);
    Join4Facts(p, x, f, z, GenderMismatch);
  }

  /** The rule of kind `k` fired for the pair. */
  predicate Fires(s: Fields, k: Kind) {
    Fired(TestsOf(s), k)
  }

  /** The condition of the rule of kind `k` holds for the pair. */
  predicate Applies(s: Fields, k: Kind) {
    Holds(TestsOf(s), k)
  }

  /** What fired is exactly what applies, so every property of `Applies`
      below holds of the rules `calculateScore` reports. */
  lemma FiresApplies(s: Fields, k: Kind)
    ensures Fires(s, k) <==> Applies(s, k)
  {
    RulesFire(TestsOf(s), k);
  }

  /** Exactly one of "Gender mismatch" and "Gender match" applies, the first
      when the upper-cased genders differ. */
  lemma GenderExactlyOne(s: Fields)
    ensures Applies(s, GenderMismatch) != Applies(s, GenderMatch)
    ensures Applies(s, GenderMismatch) <==> s.gen70 != s.gen80
  {
  }

  /** The exact and the fuzzy rule on the last name never both apply. */
  lemma ExactOrFuzzyLast(s: Fields)
    ensures !(Applies(s, ExactLast) && Applies(s, FuzzyLast))
  {
  }

  /** The exact and the fuzzy rule on the first name never both apply. */
  lemma ExactOrFuzzyFirst(s: Fields)
    ensures !(Applies(s, ExactFirst) && Applies(s, FuzzyFirst))
  {
  }

  /** "Exact birth year" applies on equal birth years, the year present. */
  lemma ExactYearApplies(s: Fields)
    ensures Applies(s, ExactBirthYear) <==> s.by70 == s.by80 && s.by70 != 0
  {
  }

  /** "Birth year ±2" applies on a difference of 1 or 2. */
  lemma NearYearApplies(s: Fields)
    ensures Applies(s, BirthYearPm2) <==> 1 <= Abs(s.by70 - s.by80) <= 2
  {
  }

  /** "Birth year ±5" applies on a difference of 3 to 5. */
  lemma FarYearApplies(s: Fields)
    ensures Applies(s, BirthYearPm5) <==> 3 <= Abs(s.by70 - s.by80) <= 5
  {
  }

  /** Of the two age rules at most one applies. */
  lemma AgeExclusive(s: Fields)
    ensures !(Applies(s, AgeDiff9to11) && Applies(s, AgeDiff8to12))
  {
  }

  /** "Race match" and "Race B/M" never both apply. */
  lemma RaceExclusive(s: Fields)
    ensures !(Applies(s, RaceMatch) && Applies(s, RaceBM))
  {
  }

  /** "Norm first" applies on equal raw `norm_first_name` values, both missing included. */
  lemma NormFirstMissing(a: Row, b: Row, jw: Similarity)
    requires a.normFirstName == b.normFirstName
    ensures Applies(FieldsOf(a, b, jw), NormFirst)
  {
  }

  /** Every pair reports exactly one of the two gender rules. */
  lemma GenderFires(s: Fields)
    ensures Fires(s, GenderMismatch) != Fires(s, GenderMatch)
  {
    FiresApplies(s, GenderMismatch);
    FiresApplies(s, GenderMatch);
    GenderExactlyOne(s);
  }

  /** "Exact birth year" is reported on equal, present birth years only. */
  lemma ExactYearFires(s: Fields)
    ensures Fires(s, ExactBirthYear) <==> s.by70 == s.by80 && s.by70 != 0
  {
    FiresApplies(s, ExactBirthYear);
    ExactYearApplies(s);
  }

  /** Coherence makes each exact rule exclude its fuzzy or near
      counterpart, so each such group earns at most its exact points. */
  lemma ExactFuzzyGroups(t: Tests)
    requires Coherent(t)
    ensures 0 <= Pts(t.lastEqual, 15) + Pts(t.jwLast >= 0.85 && t.lastDiffers, 8) <= 15
    ensures 0 <= Pts(t.firstEqual, 15) + Pts(t.jwFirst >= 0.85 && t.firstDiffers, 8) <= 15
    ensures 0 <= Pts(t.yearEqual, 10) + Pts(t.near2, 7) + Pts(!t.near2 && t.near5, 4) <= 10
    ensures 0 <= Pts(t.raceEqual, 8) + Pts(t.raceBM, 6) <= 8
    ensures 0 <= Pts(t.midEqual, 8) + Pts(t.age9to11, 10) + Pts(!t.age9to11 && t.age8to12, 6) + Pts(!t.genderDiffers, 10) + Pts(t.birthPlaceEqual, 12) <= 40
    ensures t.genderDiffers ==> Pts(t.midEqual, 8) + Pts(t.age9to11, 10) + Pts(!t.age9to11 && t.age8to12, 6) + Pts(!t.genderDiffers, 10) + Pts(t.birthPlaceEqual, 12) <= 30
  {
  }

  /** The high-value and fuzzy points regrouped by the field they test. */
  lemma ExactFuzzyRegroup(t: Tests)
    ensures HighValuePoints(t.lastEqual, t.firstEqual, t.midEqual, t.yearEqual, t.age9to11, t.age8to12, t.genderDiffers, t.raceEqual, t.birthPlaceEqual) + FuzzyPoints(t.jwLast, t.lastDiffers, t.jwFirst, t.firstDiffers, t.near2, t.near5, t.raceBM)
      == (Pts(t.lastEqual, 15) + Pts(t.jwLast >= 0.85 && t.lastDiffers, 8)) + (Pts(t.firstEqual, 15) + Pts(t.jwFirst >= 0.85 && t.firstDiffers, 8)) + (Pts(t.yearEqual, 10) + Pts(t.near2, 7) + Pts(!t.near2 && t.near5, 4)) + (Pts(t.raceEqual, 8) + Pts(t.raceBM, 6)) + (Pts(t.midEqual, 8) + Pts(t.age9to11, 10) + Pts(!t.age9to11 && t.age8to12, 6) + Pts(!t.genderDiffers, 10) + Pts(t.birthPlaceEqual, 12))
  {
  }

  /** The arithmetic of `ExactFuzzyBounds`, on the group totals. */
  lemma GroupSum(hv: int, fz: int, last: int, first: int, year: int, race: int, rest: int, genderDiffers: bool)
    requires hv + fz == last + first + year + race + rest
    requires 0 <= last <= 15 && 0 <= first <= 15 && 0 <= year <= 10 && 0 <= race <= 8
    requires 0 <= rest <= 40 && (genderDiffers ==> rest <= 30)
    ensures 0 <= hv + fz <= 88
    ensures genderDiffers ==> hv + fz <= 78
  {
  }

  /** The exact and the fuzzy rules together earn at most 88 points (78
      without the gender match). */
  lemma ExactFuzzyBounds(t: Tests)
    requires Coherent(t)
    ensures 0 <= HighValuePoints(t.lastEqual, t.firstEqual, t.midEqual, t.yearEqual, t.age9to11, t.age8to12, t.genderDiffers, t.raceEqual, t.birthPlaceEqual) + FuzzyPoints(t.jwLast, t.lastDiffers, t.jwFirst, t.firstDiffers, t.near2, t.near5, t.raceBM) <= 88
    ensures t.genderDiffers ==> HighValuePoints(t.lastEqual, t.firstEqual, t.midEqual, t.yearEqual, t.age9to11, t.age8to12, t.genderDiffers, t.raceEqual, t.birthPlaceEqual) + FuzzyPoints(t.jwLast, t.lastDiffers, t.jwFirst, t.firstDiffers, t.near2, t.near5, t.raceBM) <= 78
  {
    ExactFuzzyGroups(t);
    ExactFuzzyRegroup(t);
    GroupSum(HighValuePoints(t.lastEqual, t.firstEqual, t.midEqual, t.yearEqual, t.age9to11, t.age8to12, t.genderDiffers, t.raceEqual, t.birthPlaceEqual), FuzzyPoints(t.jwLast, t.lastDiffers, t.jwFirst, t.firstDiffers, t.near2, t.near5, t.raceBM), Pts(t.lastEqual, 15) + Pts(t.jwLast >= 0.85 && t.lastDiffers, 8), Pts(t.firstEqual, 15) + Pts(t.jwFirst >= 0.85 && t.firstDiffers, 8),
      Pts(t.yearEqual, 10) + Pts(t.near2, 7) + Pts(!t.near2 && t.near5, 4), Pts(t.raceEqual, 8) + Pts(t.raceBM, 6), Pts(t.midEqual, 8) + Pts(t.age9to11, 10) + Pts(!t.age9to11 && t.age8to12, 6) + Pts(!t.genderDiffers, 10) + Pts(t.birthPlaceEqual, 12), t.genderDiffers);
  }

  /** Penalties cost 0 to 95 points, at least 50 when the genders differ. */
  lemma PenaltiesBounds(t: Tests)
    ensures -95 <= PenaltiesPoints(t.genderDiffers, t.regression, t.contradicts) <= 0
    ensures t.genderDiffers ==> PenaltiesPoints(t.genderDiffers, t.regression, t.contradicts) <= -50
  {
  }

  /** The finding aids earn 0 to 30 points. */
  lemma FindingAidBounds(t: Tests)
    ensures 0 <= FindingAidPoints(t.nysiisLastEqual, t.normFirstEqual, t.birthYear10Equal, t.occupationEqual) <= 30
  {
  }

  /** The arithmetic of `PointsBounds`, on the section totals. */
  lemma SectionSum(pen: int, hv: int, aid: int, fz: int, genderDiffers: bool)
    requires -95 <= pen <= 0 && (genderDiffers ==> pen <= -50)
    requires 0 <= hv + fz <= 88 && (genderDiffers ==> hv + fz <= 78)
    requires 0 <= aid <= 30
    ensures -95 <= pen + hv + aid + fz <= 118
    ensures genderDiffers ==> pen + hv + aid + fz <= 58
  {
  }

  /** The bounds of the point sum of `RulesTotal`. */
  lemma PointsBounds(t: Tests)
    requires Coherent(t)
    ensures -95 <= PenaltiesPoints(t.genderDiffers, t.regression, t.contradicts) + HighValuePoints(t.lastEqual, t.firstEqual, t.midEqual, t.yearEqual, t.age9to11, t.age8to12, t.genderDiffers, t.raceEqual, t.birthPlaceEqual) + FindingAidPoints(t.nysiisLastEqual, t.normFirstEqual, t.birthYear10Equal, t.occupationEqual) + FuzzyPoints(t.jwLast, t.lastDiffers, t.jwFirst, t.firstDiffers, t.near2, t.near5, t.raceBM) <= 118
    ensures t.genderDiffers ==> PenaltiesPoints(t.genderDiffers, t.regression, t.contradicts) + HighValuePoints(t.lastEqual, t.firstEqual, t.midEqual, t.yearEqual, t.age9to11, t.age8to12, t.genderDiffers, t.raceEqual, t.birthPlaceEqual) + FindingAidPoints(t.nysiisLastEqual, t.normFirstEqual, t.birthYear10Equal, t.occupationEqual) + FuzzyPoints(t.jwLast, t.lastDiffers, t.jwFirst, t.firstDiffers, t.near2, t.near5, t.raceBM) <= 58
  {
    ExactFuzzyBounds(t);
    PenaltiesBounds(t);
    FindingAidBounds(t);
    SectionSum(PenaltiesPoints(t.genderDiffers, t.regression, t.contradicts), HighValuePoints(t.lastEqual, t.firstEqual, t.midEqual, t.yearEqual, t.age9to11, t.age8to12, t.genderDiffers, t.raceEqual, t.birthPlaceEqual), FindingAidPoints(t.nysiisLastEqual, t.normFirstEqual, t.birthYear10Equal, t.occupationEqual), FuzzyPoints(t.jwLast, t.lastDiffers, t.jwFirst, t.firstDiffers, t.near2, t.near5, t.raceBM), t.genderDiffers);
  }

  /** Scores lie between -95 and 118, and a pair whose genders differ scores
      at most 58, so it never reaches tier 1. */
  lemma RulesBounds(t: Tests)
    requires Coherent(t)
    ensures -95 <= Total(Rules(t)) <= 118
    ensures t.genderDiffers ==> Total(Rules(t)) <= 58
  {
    RulesTotal(t);
    PointsBounds(t);
  }

  /** `calculateScore(r1870, r1880)`: the total of the fired rules and their
      labels joined by ", ". */
  function CalculateScore(a: Row, b: Row, jw: Similarity): (r: Scored)
    ensures -95 <= r.score <= 118
    ensures Upper(a.gender) != Upper(b.gender) ==> r.score < TierOneFloor
  {
    var t := TestsOf(FieldsOf(a, b, jw));
    RulesBounds(t);
    ScoredOf(Rules(t))
  }

  const TierOneFloor := 70

  /** The tier cut points of `runMatching`: 70 and above is tier 1, 50 to
      69 tier 2, anything lower tier 3. */
  function TierOf(score: int): (t: int)
    ensures 1 <= t <= 3
    ensures t == 1 <==> score >= TierOneFloor
    ensures t == 2 <==> 50 <= score < TierOneFloor
  {
    if score >= TierOneFloor then 1 else if score >= 50 then 2 else 3
  }

  /** What step 2 of `runMatching` keeps: pairs scoring at least 35. */
  function Policy(jw: Similarity): (p: Blocking.Policy)
    ensures p.floor == 35
    ensures forall a, b :: p.scorer(a, b) == CalculateScore(a, b, jw)
    ensures forall x :: 1 <= p.tierOf(x) <= 3
  {
    Blocking.Policy((a, b) => CalculateScore(a, b, jw), 35, TierOf)
  }

  /** The accepted matches (`all`): the greedy one-to-one walk over the
      candidates sorted by descending score. */
  function Matches(d70: seq<Row>, d80: seq<Row>, jw: Similarity): (all: seq<Candidate>)
    ensures OneToOne(all)
  {
    var blocks := Blocking.BuildBlocks(BlockKeys, d70, FixAll(d80));
    var sorted := SortByScore(Blocking.ScoreAll(blocks, Policy(jw)).Values());
    GreedyOneToOne(sorted, {}, {});
    Greedy(sorted, {}, {})
  }

  /** `all` is one-to-one, in non-increasing score order, every pair scores
      at least 35 and carries the tier of its score, the three tier lists
      partition it, and each keeps the order of `all`. */
  lemma MatchesCorrect(d70: seq<Row>, d80: seq<Row>, jw: Similarity)
    ensures var all := Matches(d70, d80, jw);
      OneToOne(all) && NonIncreasing(all) && Blocking.AllQualify(all, Policy(jw))
    ensures var all := Matches(d70, d80, jw);
      |WithTier(all, 1)| + |WithTier(all, 2)| + |WithTier(all, 3)| == |all|
    ensures var all := Matches(d70, d80, jw);
      forall t :: NonIncreasing(WithTier(all, t)) && (forall c :: c in WithTier(all, t) <==> c in all && c.tier == t)
  {
    var p := Policy(jw);
    var cm := Blocking.ScoreAll(Blocking.BuildBlocks(BlockKeys, d70, FixAll(d80)), p);
    Blocking.ValuesQualify(cm, p);
    Blocking.ResolvedQualify(cm.Values(), p);
    var all := Matches(d70, d80, jw);
    assert forall i :: 0 <= i < |all| ==> Blocking.Qualifies(all[i], p);
    TierSplit(all);
  }

  /** The body of the 1880 `forEach` of step 1: the row is fixed up, then
      added to its blocks. */
  method FixAndBlock(b0: Blocking.Blocks, r: Row) returns (b: Blocking.Blocks, row: Row)
    ensures row == FixLastName(r)
    ensures b == Blocking.AddKeys(b0, BlockKeys(row), row, false)
  {
    row := r;
    if row.lastName == "" && row.lastNameTypo != "" {
      row := row.(lastName := row.lastNameTypo);
    }
    b := Blocking.AddKeysLoop(b0, BlockKeys(row), row, false);
  }

  /** The 1880 `forEach` of step 1: each row is fixed up, then added to
      its blocks; the fixed rows are returned as the census now reads. */
  method AddFixedRows(b0: Blocking.Blocks, rows: seq<Row>) returns (b: Blocking.Blocks, fixed: seq<Row>)
    ensures fixed == FixAll(rows)
    ensures b == Blocking.AddRows(b0, BlockKeys, fixed, false)
  {
    b := b0;
    fixed := [];
    var i := 0;
    while i < |rows|
      invariant 0 <= i <= |rows|
      invariant fixed == FixAll(rows[..i])
      invariant b == Blocking.AddRows(b0, BlockKeys, fixed, false)
    {
      var row;
      b, row := FixAndBlock(b, rows[i]);
      Blocking.AddRowsSnoc(b0, BlockKeys, fixed, row, false);
      FixAllStep(rows, i);
      fixed := fixed + [row];
      i := i + 1;
    }
    assert rows[..i] == rows;
  }

  /** The strict one-to-one loop of step 3 over sorted candidates. */
  method GreedyMatches(walk: seq<Candidate>) returns (matches: seq<Candidate>)
    ensures matches == Greedy(walk, {}, {})
  {
    var used70: set<string> := {};
    var used80: set<string> := {};
    matches := [];
    var i := 0;
    while i < |walk|
      invariant 0 <= i <= |walk|
      invariant matches + Greedy(walk[i..], used70, used80) == Greedy(walk, {}, {})
    {
      var cand := walk[i];
      if cand.r70.line !in used70 && cand.r80.line !in used80 {
        GreedyTake(walk, i, used70, used80, matches);
        used70 := used70 + {cand.r70.line};
        used80 := used80 + {cand.r80.line};
        matches := matches + [cand];
      } else {
        GreedySkip(walk, i, used70, used80);
      }
      i := i + 1;
    }
    assert walk[i..] == [];
  }

  /** `runMatching(data1870, data1880)`: blocking, scoring, resolution and
      the tier split. Also returns the 1880 rows after the last-name fix-up,
      which the code applies to the caller's rows in place. */
  method RunMatching(data1870: seq<Row>, data1880: seq<Row>, jw: Similarity)
    returns (tier1: seq<Candidate>, tier2: seq<Candidate>, tier3: seq<Candidate>, all: seq<Candidate>, fixed1880: seq<Row>)
    ensures all == Matches(data1870, data1880, jw)
    ensures tier1 == WithTier(all, 1) && tier2 == WithTier(all, 2) && tier3 == WithTier(all, 3)
    ensures fixed1880 == FixAll(data1880)
  {
    var blocks := Blocking.AddRowsLoop(EmptyMap(), BlockKeys, data1870, true);
    blocks, fixed1880 := AddFixedRows(blocks, data1880);
    var cm := Blocking.ScoreCandidates(blocks, Policy(jw));
    var candidates := SortByScore(cm.Values());
    all := GreedyMatches(candidates);
    tier1, tier2, tier3 := WithTier(all, 1), WithTier(all, 2), WithTier(all, 3);
  }
}
