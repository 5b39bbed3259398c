/** The relation finder (`relations.js`): for each 1880 head of household
    found again in 1870 by ego id, every family member whose relation label
    names a kinship is matched against the head's 1870 household by a small
    name-and-age score, and each accepted match becomes a tier-1 entry. */
module Relations {
  import opened Strings
  import opened Census
  import Households
  import Ranking
  import AppLogic

  /** The key both household indexes use: `r.family`. */
  function FamilyOf(r: Row): string {
    r.family
  }

  // ---------------------------------------------------------------------
  // Household indexing
  // ---------------------------------------------------------------------

  /** `heads1880`: the rows marked `head === 'Y'`, in file order. */
  function Heads(rows: seq<Row>): seq<Row> {
    if rows == [] then []
    else Heads(rows[..|rows| - 1]) + (if rows[|rows| - 1].head == "Y" then [rows[|rows| - 1]] else [])
  }

  /** Appending one row appends it to the heads iff it is marked. */
  lemma HeadsSnoc(rows: seq<Row>, r: Row)
    ensures Heads(rows + [r]) == Heads(rows) + (if r.head == "Y" then [r] else [])
  {
    assert (rows + [r])[..|rows|] == rows;
  }

  /** `heads1880` holds exactly the rows marked as heads. */
  lemma {:induction false} HeadsExactly(rows: seq<Row>)
    ensures forall i :: 0 <= i < |Heads(rows)| ==> Heads(rows)[i] in rows && Heads(rows)[i].head == "Y"
    ensures forall r :: r in rows && r.head == "Y" ==> r in Heads(rows)
  {
    if rows != [] {
      var init := rows[..|rows| - 1];
      HeadsExactly(init);
      assert rows == init + [rows[|rows| - 1]];
    }
  }

  /** The 1880 loop of `findRelations`: one pass fills the household index
      and the list of heads. */
  method IndexLater(d80: seq<Row>) returns (house: Households.Index, heads: seq<Row>)
    ensures house == Households.Group(d80, FamilyOf, true)
    ensures heads == Heads(d80)
  {
    house := EmptyMap();
    heads := [];
    var i := 0;
    while i < |d80|
      invariant 0 <= i <= |d80|
      invariant house == Households.Group(d80[..i], FamilyOf, true)
      invariant heads == Heads(d80[..i])
    {
      var r := d80[i];
      var fid := r.family;
      var members := Households.Members(house, fid);
      assert d80[..i + 1] == d80[..i] + [r];
      Households.GroupSnoc(d80[..i], FamilyOf, true, r);
      HeadsSnoc(d80[..i], r);
      assert fid == FamilyOf(r);
      house := house.Set(fid, members + [r]);
      if r.head == "Y" {
        heads := heads + [r];
      }
      i := i + 1;
    }
    assert d80[..i] == d80;
  }

  /** `data1870.find(r => r.egoid === egoid)`, as the index of the first
      such row from position `from` on. */
  function FindEgoFrom(rows: seq<Row>, egoid: string, from: nat): (k: Option<nat>)
    requires from <= |rows|
    ensures k.Some? ==> from <= k.value < |rows| && rows[k.value].egoid == egoid
    ensures k.Some? ==> forall j :: from <= j < k.value ==> rows[j].egoid != egoid
    ensures k.None? ==> forall j :: from <= j < |rows| ==> rows[j].egoid != egoid
    decreases |rows| - from
  {
    if from == |rows| then None
    else if rows[from].egoid == egoid then Some(from)
    else FindEgoFrom(rows, egoid, from + 1)
  }

  /** The first 1870 row carrying an ego id, if any. */
  function FindEgo(rows: seq<Row>, egoid: string): (r: Option<Row>)
    ensures r.Some? ==> r.value in rows && r.value.egoid == egoid
    ensures r.None? <==> forall j :: 0 <= j < |rows| ==> rows[j].egoid != egoid
  {
    match FindEgoFrom(rows, egoid, 0)
    case None => None
    case Some(k) => Some(rows[k])
  }

  /** The row `FindEgo` returns is the earliest one with that ego id. */
  lemma FindEgoFirst(rows: seq<Row>, egoid: string, j: nat)
    requires j < |rows| && rows[j].egoid == egoid
    ensures FindEgo(rows, egoid).Some?
    ensures exists k :: 0 <= k <= j && rows[k] == FindEgo(rows, egoid).value && forall i :: 0 <= i < k ==> rows[i].egoid != egoid
  {
    var k := FindEgoFrom(rows, egoid, 0);
    assert k.Some? && k.value <= j;
    assert rows[k.value] == FindEgo(rows, egoid).value;
  }

  // ---------------------------------------------------------------------
  // Label classification
  // ---------------------------------------------------------------------

  /** The kinship types the classifier assigns (`type`). */
  datatype Kinship =
    | Spouse | Child | GrandChild | Sibling | Nibling | Mother | Father
    | Cousin | BrotherInLaw | InLaw | SisterInLaw

  /** The text of `type`, as it appears in `"<type> Found"`. */
  function TypeName(k: Kinship): (name: string)
    ensures name != ""
  {
    match k
    case Spouse => "Spouse"
    case Child => "Child"
    case GrandChild => "Grand-child"
    case Sibling => "Sibling"
    case Nibling => "Nibling"
    case Mother => "Mother"
    case Father => "Father"
    case Cousin => "Cousin"
    case BrotherInLaw => "Brother-in-law"
    case InLaw => "In-Law"
    case SisterInLaw => "Sister-in-law"
  }

  /** Distinct types give distinct `details` texts. */
  lemma TypeNameInjective(a: Kinship, b: Kinship)
    ensures TypeName(a) + " Found" == TypeName(b) + " Found" ==> a == b
  {
    if TypeName(a) + " Found" == TypeName(b) + " Found" {
      var n := |TypeName(a) + " Found"| - 6;
      assert TypeName(a) == (TypeName(a) + " Found")[..n];
      assert TypeName(b) == (TypeName(b) + " Found")[..n];
    }
  }

  /** `type` and `note` as the chain sets them. */
  datatype Label = Label(kin: Kinship, note: string)

  /** The labels the chain recognises by equality, before any substring rule. */
  predicate ExactLabel(rel: string) {
    || rel == "wife"
    || rel == "daughter" || rel == "son" || rel == "step-son" || rel == "step-daughter"
    || rel == "grand-daughter" || rel == "grand-son"
    || rel == "brother" || rel == "sister"
    || rel == "niece" || rel == "nephew"
    || rel == "mother" || rel == "father"
  }

  /** The `if … else if …` chain on the lower-cased relation label. The
      father- and mother-in-law rule looks for the hyphenated spellings only
      (the pattern's underscores are turned into hyphens, the label's are
      not), and drops its type when the member shares the head's surname. */
  function Classify(rel: string, memberLast: string, headLast: string): (r: Option<Label>)
    ensures ExactLabel(rel) ==> r.Some?
    ensures r.Some? && r.value.kin == InLaw ==> memberLast != headLast && r.value.note == "Via " + rel
  {
    if rel == "wife" then Some(Label(Spouse, "Wife of Head"))
    else if rel == "daughter" || rel == "son" || rel == "step-son" || rel == "step-daughter" then
      Some(Label(Child, "Child of Head"))
    else if rel == "grand-daughter" || rel == "grand-son" then Some(Label(GrandChild, "Grand-child of Head"))
    else if rel == "brother" || rel == "sister" then Some(Label(Sibling, "Sibling of Head"))
    else if rel == "niece" || rel == "nephew" then Some(Label(Nibling, "Nibling"))
    else if rel == "mother" then Some(Label(Mother, "Mother of Head"))
    else if rel == "father" then Some(Label(Father, "Father of Head"))
    else if Contains(rel, "cousin") then Some(Label(Cousin, "Cousin of Head"))
    else if Contains(rel, "brother-in-law") || Contains(rel, "brother_in_law") then
      Some(Label(BrotherInLaw, "Via Brother-in-law"))
    else if Contains(rel, "father-in-law") || Contains(rel, "mother-in-law") then
      if memberLast == headLast then None else Some(Label(InLaw, "Via " + rel))
    else if Contains(rel, "sister") && Contains(rel, "law") then Some(Label(SisterInLaw, "Via Sister-in-law"))
    else None
  }

  /** Exact labels win over the substring rules: "brother" and "sister" are
      siblings, while their in-law forms get their own types. */
  lemma ExactBeforeSubstring(m: string, h: string)
    ensures Classify("brother", m, h) == Some(Label(Sibling, "Sibling of Head"))
    ensures Classify("sister", m, h) == Some(Label(Sibling, "Sibling of Head"))
    ensures Classify("brother-in-law", m, h) == Some(Label(BrotherInLaw, "Via Brother-in-law"))
    ensures Classify("sister-in-law", m, h) == Some(Label(SisterInLaw, "Via Sister-in-law"))
  {
    BrotherInLawLabel(m, h);
    SisterInLawLabel(m, h);
  }

  lemma BrotherInLawLabel(m: string, h: string)
    ensures Classify("brother-in-law", m, h) == Some(Label(BrotherInLaw, "Via Brother-in-law"))
  {
    MissingChar("brother-in-law", "cousin", 'c');
    ContainsAt("brother-in-law", "brother-in-law", 0);
  }

  lemma SisterInLawLabel(m: string, h: string)
    ensures Classify("sister-in-law", m, h) == Some(Label(SisterInLaw, "Via Sister-in-law"))
  {
    NotEarlierLaw("sister-in-law", 's');
    ContainsAt("sister-in-law", "sister", 0);
    ContainsAt("sister-in-law", "law", 10);
  }

  /** A label without a 'c' or a 'b' names neither a cousin nor a brother-in-law. */
  lemma NotCousinOrBrother(rel: string)
    requires 'c' !in rel && 'b' !in rel
    ensures !Contains(rel, "cousin") && !Contains(rel, "brother-in-law") && !Contains(rel, "brother_in_law")
  {
    MissingChar(rel, "cousin", 'c');
    MissingChar(rel, "brother-in-law", 'b');
    MissingChar(rel, "brother_in_law", 'b');
  }

  /** A label of the given shapes names no rule before the sister-in-law one:
      `x` is a character of "-in-law" the label lacks. */
  lemma NotEarlierLaw(rel: string, x: char)
    requires 'c' !in rel && 'b' !in rel
    requires (x == 's' && 'f' !in rel && 'm' !in rel) || (x == '-' && '-' !in rel)
    ensures !Contains(rel, "cousin") && !Contains(rel, "brother-in-law") && !Contains(rel, "brother_in_law")
    ensures !Contains(rel, "father-in-law") && !Contains(rel, "mother-in-law")
  {
    NotCousinOrBrother(rel);
    if x == 's' {
      MissingChar(rel, "father-in-law", 'f');
      MissingChar(rel, "mother-in-law", 'm');
    } else {
      MissingChar(rel, "father-in-law", '-');
      MissingChar(rel, "mother-in-law", '-');
    }
  }

  /** Every label naming a cousin gets a type, whatever else it says. */
  lemma CousinTyped(rel: string, m: string, h: string)
    requires Contains(rel, "cousin")
    ensures Classify(rel, m, h).Some?
  {
  }

  /** A label that is not one of the exact ones and mentions neither
      "cousin" nor "law" gets no type. */
  lemma Unlisted(rel: string, m: string, h: string)
    requires !ExactLabel(rel) && !Contains(rel, "cousin") && !Contains(rel, "law")
    ensures Classify(rel, m, h) == None
  {
    LawIn("brother-in-law", 11);
    LawIn("brother_in_law", 11);
    LawIn("father-in-law", 10);
    LawIn("mother-in-law", 10);
    if Contains(rel, "brother-in-law") { ContainsTrans(rel, "brother-in-law", "law"); }
    if Contains(rel, "brother_in_law") { ContainsTrans(rel, "brother_in_law", "law"); }
    if Contains(rel, "father-in-law") { ContainsTrans(rel, "father-in-law", "law"); }
    if Contains(rel, "mother-in-law") { ContainsTrans(rel, "mother-in-law", "law"); }
  }

  lemma LawIn(s: string, k: nat)
    requires k + 3 <= |s| && s[k..k + 3] == "law"
    ensures Contains(s, "law")
  {
    ContainsAt(s, "law", k);
  }

  /** The father- and mother-in-law rule ignores the underscore spelling:
      such a label falls through to no type at all. */
  lemma UnderscoreInLawUntyped(m: string, h: string)
    ensures Classify("father_in_law", m, h) == None
    ensures Classify("mother_in_law", m, h) == None
  {
    FatherUnderscore(m, h);
    MotherUnderscore(m, h);
  }

  lemma FatherUnderscore(m: string, h: string)
    ensures Classify("father_in_law", m, h) == None
  {
    NotEarlierLaw("father_in_law", '-');
    MissingChar("father_in_law", "sister", 's');
  }

  lemma MotherUnderscore(m: string, h: string)
    ensures Classify("mother_in_law", m, h) == None
  {
    NotEarlierLaw("mother_in_law", '-');
    MissingChar("mother_in_law", "sister", 's');
  }

  /** An In-Law type is only ever given to a member whose surname differs
      from the head's. */
  lemma InLawOtherSurname(rel: string, m: string, h: string)
    ensures Classify(rel, m, h).Some? && Classify(rel, m, h).value.kin == InLaw ==> m != h
  {
  }

  /** The surnames matter only to the In-Law rule: two classifications of one
      label differ only when one is In-Law and the other, for a member sharing
      the head's surname, is no type. */
  lemma SurnamesOnlyDropInLaw(rel: string, m1: string, h1: string, m2: string, h2: string)
    ensures var a, b := Classify(rel, m1, h1), Classify(rel, m2, h2);
      || a == b
      || (a.Some? && a.value.kin == InLaw && b.None? && m2 == h2)
      || (b.Some? && b.value.kin == InLaw && a.None? && m1 == h1)
  {
  }

  // ---------------------------------------------------------------------
  // findBestMatch
  // ---------------------------------------------------------------------

  /** `(x || '').toLowerCase().trim()` */
  function Norm(s: string): string {
    Trim(Lower(s))
  }

  /** The name part of a candidate's score. */
  function NameScore(m70: Row, m80: Row, jw: Similarity): (n: int)
    ensures n == 0 || n == 40 || n == 60 || n == 80 || n == 100
    ensures Norm(m70.firstName) == Norm(m80.firstName) != "" ==> n == 100
  {
    var n1, n2 := Norm(m70.firstName), Norm(m80.firstName);
    var nm1, nm2 := Norm(m70.normFirstName), Norm(m80.normFirstName);
    if n1 == n2 && n1 != "" then 100
    else if jw(n1, n2) > 0.85 then 80
    else if nm1 == nm2 && nm1 != "" then 60
    else if jw(n1, n2) > 0.7 then 40
    else 0
  }

  function Abs(x: int): nat {
    if x < 0 then -x else x
  }

  /** The age part: only when both birth years are known. */
  function AgeScore(m70: Row, m80: Row): (n: int)
    ensures n == 0 || n == 40 || n == 80 || n == 100
    ensures m70.birthYearNum == 0 || m80.birthYearNum == 0 ==> n == 0
    ensures n == 100 <==> m70.birthYearNum != 0 && m70.birthYearNum == m80.birthYearNum
  {
    var y1, y2 := m70.birthYearNum, m80.birthYearNum;
    if y1 != 0 && y2 != 0 then
      var diff := Abs(y1 - y2);
      if diff == 0 then 100 else if diff <= 2 then 80 else if diff <= 5 then 40 else 0
    else 0
  }

  function MemberScore(m70: Row, m80: Row, jw: Similarity): (n: int)
    ensures 0 <= n <= 200
  {
    NameScore(m70, m80, jw) + AgeScore(m70, m80)
  }

  /** What clears the threshold of 60: a strong name on its own, a close
      birth year on its own, or at least a weak name with an age within five
      years. A normalised-name match with no usable age does not. */
  lemma Accepted(m70: Row, m80: Row, jw: Similarity)
    ensures var n, a := NameScore(m70, m80, jw), AgeScore(m70, m80);
      MemberScore(m70, m80, jw) > 60 <==> (n >= 80 || a >= 80 || (n >= 40 && a >= 40))
  {
  }

  /** A record compared with itself gets the top score once it has a first
      name and a birth year. */
  lemma SelfScoresTop(r: Row, jw: Similarity)
    requires Norm(r.firstName) != "" && r.birthYearNum != 0
    ensures MemberScore(r, r, jw) == 200
  {
  }

  /** The score `findBestMatch` gives each candidate for one 1880 member. */
  function ScoreAgainst(m80: Row, jw: Similarity): Row -> int {
    m70 => MemberScore(m70, m80, jw)
  }

  /** The score of every candidate, in order. */
  function ScoresBy(cands: seq<Row>, score: Row -> int): (s: seq<int>)
    ensures |s| == |cands|
    ensures forall i :: 0 <= i < |cands| ==> s[i] == score(cands[i])
  {
    seq(|cands|, i requires 0 <= i < |cands| => score(cands[i]))
  }

  /** The position of the earliest largest value among the first `n`. */
  function ArgMaxTo(s: seq<int>, n: nat): (k: nat)
    requires 1 <= n <= |s|
    ensures k < n
    ensures forall j :: 0 <= j < n ==> s[j] <= s[k]
    ensures forall j :: 0 <= j < k ==> s[j] < s[k]
  {
    if n == 1 then 0
    else
      var k := ArgMaxTo(s, n - 1);
      if s[n - 1] > s[k] then n - 1 else k
  }

  /** The earliest candidate with the best score, provided that score is above 60. */
  function BestBy(cands: seq<Row>, score: Row -> int): Option<Row> {
    if cands == [] then None
    else
      var s := ScoresBy(cands, score);
      var k := ArgMaxTo(s, |s|);
      if s[k] > 60 then Some(cands[k]) else None
  }

  /** A best candidate exists exactly when some candidate scores above 60,
      and it is the earliest candidate no other beats. */
  lemma BestBySpec(cands: seq<Row>, score: Row -> int)
    ensures BestBy(cands, score).Some? <==> exists i :: 0 <= i < |cands| && score(cands[i]) > 60
    ensures BestBy(cands, score).Some? ==>
      exists k :: 0 <= k < |cands| && cands[k] == BestBy(cands, score).value
        && (forall j :: 0 <= j < |cands| ==> score(cands[j]) <= score(cands[k]))
        && (forall j :: 0 <= j < k ==> score(cands[j]) < score(cands[k]))
  {
    if cands != [] {
      var s := ScoresBy(cands, score);
      var k := ArgMaxTo(s, |s|);
      assert s[k] == score(cands[k]);
    }
  }

  /** The loop of `findBestMatch`: `best` and `maxScore` follow the first
      candidate with a strictly higher score than all before it. */
  method FindBestBy(cands: seq<Row>, score: Row -> int) returns (best: Option<Row>)
    requires forall i :: 0 <= i < |cands| ==> score(cands[i]) >= 0
    ensures best == BestBy(cands, score)
  {
    ghost var s := ScoresBy(cands, score);
    var found: Option<Row> := None;
    var maxScore := -1;
    var i := 0;
    while i < |cands|
      invariant 0 <= i <= |cands|
      invariant i == 0 ==> found == None && maxScore == -1
      invariant i > 0 ==> maxScore == s[ArgMaxTo(s, i)] && found == Some(cands[ArgMaxTo(s, i)])
    {
      var sc := score(cands[i]);
      if sc > maxScore {
        maxScore := sc;
        found := Some(cands[i]);
      }
      i := i + 1;
    }
    best := if maxScore > 60 then found else None;
  }

  /** The candidate `findBestMatch(member80, candidates)` returns. */
  function BestMatch(m80: Row, cands: seq<Row>, jw: Similarity): (b: Option<Row>)
    ensures b.Some? ==> b.value in cands
  {
    BestBySpec(cands, ScoreAgainst(m80, jw));
    BestBy(cands, ScoreAgainst(m80, jw))
  }

  /** `findBestMatch(member80, candidates)` */
  method FindBestMatch(m80: Row, cands: seq<Row>, jw: Similarity) returns (best: Option<Row>)
    ensures best == BestMatch(m80, cands, jw)
  {
    best := FindBestBy(cands, ScoreAgainst(m80, jw));
  }

  // ---------------------------------------------------------------------
  // Emitting relation entries
  // ---------------------------------------------------------------------

  /** One object pushed onto `app.candidates`: `r70` is the head and `r80`
      the related 1870 row, as the source aliases them. */
  datatype Relative = Relative(head: Row, relation: Row, spouses: Row, details: string, tier: int) {
    function R70(): Row { head }
    function R80(): Row { relation }
  }

  /** `addMatch`: nothing for the head's own 1870 record, else one entry. */
  function Entry(head80: Row, member80: Row, rel: Row, kin: Kinship): (e: seq<Relative>)
    ensures |e| <= 1
    ensures e == [] <==> rel.egoid == head80.egoid
  {
    if rel.egoid == head80.egoid then []
    else [Relative(head80, rel, member80, TypeName(kin) + " Found", 1)]
  }

  /** `(member80.marital || member80.marital_status || '').toUpperCase()` */
  function MaritalOf(r: Row): string {
    Upper(Or(r.marital, r.maritalStatus))
  }

  /** The in-law checks on a found match: an In-Law or Sister-in-law whose
      1870 surname is the head's is rejected, and a Sister-in-law must be single. */
  predicate Rejected(kin: Kinship, head80: Row, member80: Row, m: Row) {
    || ((kin == InLaw || kin == SisterInLaw) && m.lastName == head80.lastName)
    || (kin == SisterInLaw && MaritalOf(member80) != "S")
  }

  /** What a member contributes once its label is classified and its best
      1870 match is known. */
  function EntryFor(head80: Row, member80: Row, kinship: Option<Label>, best: Option<Row>): (es: seq<Relative>)
    ensures |es| <= 1
    ensures es != [] ==> (kinship.Some? && best.Some? && !Rejected(kinship.value.kin, head80, member80, best.value)
      && es[0].head == head80 && es[0].spouses == member80 && es[0].relation == best.value)
  {
    match kinship
    case None => []
    case Some(l) =>
      match best
      case None => []
      case Some(m) => if Rejected(l.kin, head80, member80, m) then [] else Entry(head80, member80, m, l.kin)
  }

  /** What one 1880 household member contributes. */
  function MemberEntry(head80: Row, member80: Row, list70: seq<Row>, jw: Similarity): seq<Relative> {
    EntryFor(head80, member80, Classify(Lower(member80.relation), member80.lastName, head80.lastName),
             BestMatch(member80, list70, jw))
  }

  /** The entries for the members of one household, in member order. */
  function MembersEntries(head80: Row, members: seq<Row>, list70: seq<Row>, jw: Similarity): seq<Relative> {
    if members == [] then []
    else
      MembersEntries(head80, members[..|members| - 1], list70, jw)
        + MemberEntry(head80, members[|members| - 1], list70, jw)
  }

  /** The entries for one 1880 head: none when no 1870 row has the head's ego id. */
  function HeadEntries(head80: Row, d70: seq<Row>, house70: Households.Index, house80: Households.Index, jw: Similarity): (es: seq<Relative>)
    ensures FindEgo(d70, head80.egoid).None? ==> es == []
  {
    match FindEgo(d70, head80.egoid)
    case None => []
    case Some(h70) =>
      MembersEntries(head80, Households.Members(house80, head80.family), Households.Members(house70, h70.family), jw)
  }

  function HeadsEntries(heads: seq<Row>, d70: seq<Row>, house70: Households.Index, house80: Households.Index, jw: Similarity): seq<Relative> {
    if heads == [] then []
    else
      HeadsEntries(heads[..|heads| - 1], d70, house70, house80, jw)
        + HeadEntries(heads[|heads| - 1], d70, house70, house80, jw)
  }

  /** Everything `findRelations` pushes onto the cleared `app.candidates`. */
  function Relations(d70: seq<Row>, d80: seq<Row>, jw: Similarity): seq<Relative> {
    HeadsEntries(Heads(d80), d70, Households.Group(d70, FamilyOf, true), Households.Group(d80, FamilyOf, true), jw)
  }

  /** What every entry satisfies: it pairs a head with one of the members of
      the household of the head's 1870 record (the first 1870 row with the
      head's ego id), other than that record, found through a member of the
      head's 1880 household; it is tier 1 and its details name its type; the
      in-law rejections held. */
  ghost predicate WellFormed(e: Relative, d70: seq<Row>, d80: seq<Row>) {
    && e.relation.egoid != e.head.egoid
    && e.tier == 1
    && e.head in d80 && e.head.head == "Y"
    && e.spouses in d80 && e.spouses.family == e.head.family
    && e.relation in d70
    && FindEgo(d70, e.head.egoid).Some?
    && e.relation.family == FindEgo(d70, e.head.egoid).value.family
    && (exists k: Kinship :: e.details == TypeName(k) + " Found")
    && (e.details == "In-Law Found" || e.details == "Sister-in-law Found" ==> e.relation.lastName != e.head.lastName)
    && (e.details == "Sister-in-law Found" ==> MaritalOf(e.spouses) == "S")
  }

  lemma EntryForWellFormed(head80: Row, member80: Row, kinship: Option<Label>, best: Option<Row>, d70: seq<Row>, d80: seq<Row>)
    requires head80 in d80 && head80.head == "Y"
    requires member80 in d80 && member80.family == head80.family
    requires FindEgo(d70, head80.egoid).Some?
    requires best.Some? ==> best.value in d70 && best.value.family == FindEgo(d70, head80.egoid).value.family
    ensures forall e :: e in EntryFor(head80, member80, kinship, best) ==> WellFormed(e, d70, d80)
  {
    if kinship.Some? && best.Some? {
      var k := kinship.value.kin;
      TypeNameInjective(k, InLaw);
      TypeNameInjective(k, SisterInLaw);
    }
  }

  lemma MemberEntryWellFormed(head80: Row, member80: Row, list70: seq<Row>, jw: Similarity, d70: seq<Row>, d80: seq<Row>)
    requires head80 in d80 && head80.head == "Y"
    requires member80 in d80 && member80.family == head80.family
    requires FindEgo(d70, head80.egoid).Some?
    requires forall r :: r in list70 ==> r in d70 && r.family == FindEgo(d70, head80.egoid).value.family
    ensures forall e :: e in MemberEntry(head80, member80, list70, jw) ==> WellFormed(e, d70, d80)
  {
    EntryForWellFormed(head80, member80, Classify(Lower(member80.relation), member80.lastName, head80.lastName),
                       BestMatch(member80, list70, jw), d70, d80);
  }

  lemma {:induction false} MembersEntriesWellFormed(head80: Row, members: seq<Row>, list70: seq<Row>, jw: Similarity, d70: seq<Row>, d80: seq<Row>)
    requires head80 in d80 && head80.head == "Y"
    requires forall m :: m in members ==> m in d80 && m.family == head80.family
    requires FindEgo(d70, head80.egoid).Some?
    requires forall r :: r in list70 ==> r in d70 && r.family == FindEgo(d70, head80.egoid).value.family
    ensures forall e :: e in MembersEntries(head80, members, list70, jw) ==> WellFormed(e, d70, d80)
    decreases |members|
  {
    if members != [] {
      var init := members[..|members| - 1];
      assert forall m :: m in init ==> m in members;
      MembersEntriesWellFormed(head80, init, list70, jw, d70, d80);
      MemberEntryWellFormed(head80, members[|members| - 1], list70, jw, d70, d80);
    }
  }

  /** A household's members as the index lists them come from the census
      and share the family key. */
  lemma MembersFromIndex(rows: seq<Row>, k: string)
    ensures forall m :: m in Households.Members(Households.Group(rows, FamilyOf, true), k) ==> m in rows && m.family == k
  {
    Households.GroupMembers(rows, FamilyOf, true, k);
  }

  lemma {:induction false} HeadsEntriesWellFormed(heads: seq<Row>, d70: seq<Row>, d80: seq<Row>, jw: Similarity)
    requires forall h :: h in heads ==> h in d80 && h.head == "Y"
    ensures var house70, house80 := Households.Group(d70, FamilyOf, true), Households.Group(d80, FamilyOf, true);
      forall e :: e in HeadsEntries(heads, d70, house70, house80, jw) ==> WellFormed(e, d70, d80)
    decreases |heads|
  {
    var house70, house80 := Households.Group(d70, FamilyOf, true), Households.Group(d80, FamilyOf, true);
    if heads != [] {
      var init := heads[..|heads| - 1];
      var h := heads[|heads| - 1];
      assert forall x :: x in init ==> x in heads;
      HeadsEntriesWellFormed(init, d70, d80, jw);
      var h70 := FindEgo(d70, h.egoid);
      if h70.Some? {
        MembersFromIndex(d80, h.family);
        MembersFromIndex(d70, h70.value.family);
        MembersEntriesWellFormed(h, Households.Members(house80, h.family), Households.Members(house70, h70.value.family), jw, d70, d80);
      }
    }
  }

  /** No entry pairs a head with its own record; every entry is well formed. */
  lemma RelationsWellFormed(d70: seq<Row>, d80: seq<Row>, jw: Similarity)
    ensures forall e :: e in Relations(d70, d80, jw) ==> WellFormed(e, d70, d80)
  {
    HeadsExactly(d80);
    HeadsEntriesWellFormed(Heads(d80), d70, d80, jw);
  }

  // Each step below returns the entries it pushes onto `app.candidates`;
  // `ProcessHeads` appends them and counts them in `relationsFound`.

  /** `addMatch(head80, r80, rRel, type, note)`: one entry, unless the 1870
      record is the head's own. */
  method AddMatch(head80: Row, member80: Row, rel: Row, kin: Kinship) returns (pushed: seq<Relative>)
    ensures pushed == Entry(head80, member80, rel, kin)
  {
    if rel.egoid == head80.egoid {
      return [];
    }
    pushed := [Relative(head80, rel, member80, TypeName(kin) + " Found", 1)];
  }

  /** The body of the member loop for one 1880 household member. */
  method ProcessMember(head80: Row, member80: Row, list70: seq<Row>, jw: Similarity) returns (pushed: seq<Relative>)
    ensures pushed == MemberEntry(head80, member80, list70, jw)
  {
    var rel := Lower(member80.relation);
    var kinship := Classify(rel, member80.lastName, head80.lastName);
    if kinship.None? {
      return [];
    }
    var kin := kinship.value.kin;
    var best := FindBestMatch(member80, list70, jw);
    if best.None? {
      return [];
    }
    var m := best.value;
    if kin == InLaw || kin == SisterInLaw {
      if m.lastName == head80.lastName {
        return [];
      }
      if kin == SisterInLaw {
        var mStat := Upper(Or(member80.marital, member80.maritalStatus));
        if mStat != "S" {
          return [];
        }
      }
    }
    pushed := AddMatch(head80, member80, m, kin);
  }

  /** The `forEach` over the members of one 1880 household. */
  method ProcessMembers(head80: Row, list80: seq<Row>, list70: seq<Row>, jw: Similarity) returns (pushed: seq<Relative>)
    ensures pushed == MembersEntries(head80, list80, list70, jw)
  {
    pushed := [];
    var j := 0;
    while j < |list80|
      invariant 0 <= j <= |list80|
      invariant pushed == MembersEntries(head80, list80[..j], list70, jw)
    {
      var p := ProcessMember(head80, list80[j], list70, jw);
      pushed := pushed + p;
      assert list80[..j + 1][..j] == list80[..j];
      j := j + 1;
    }
    assert list80[..j] == list80;
  }

  /** One iteration of the loop over `heads1880`: a head with no 1870
      record is skipped. */
  method ProcessHead(head80: Row, d70: seq<Row>, house70: Households.Index, house80: Households.Index, jw: Similarity)
    returns (pushed: seq<Relative>)
    ensures pushed == HeadEntries(head80, d70, house70, house80, jw)
  {
    var list80 := Households.Members(house80, head80.family);
    var head70 := FindEgo(d70, head80.egoid);
    if head70.None? {
      return [];
    }
    var list70 := Households.Members(house70, head70.value.family);
    pushed := ProcessMembers(head80, list80, list70, jw);
  }

  /** The loop over `heads1880` (all chunks of it), from the cleared list
      and a zero count. */
  method ProcessHeads(heads: seq<Row>, d70: seq<Row>, house70: Households.Index, house80: Households.Index, jw: Similarity)
    returns (cands: seq<Relative>, found: int)
    ensures cands == HeadsEntries(heads, d70, house70, house80, jw)
    ensures found == |cands|
  {
    cands, found := [], 0;
    var i := 0;
    while i < |heads|
      invariant 0 <= i <= |heads|
      invariant cands == HeadsEntries(heads[..i], d70, house70, house80, jw)
      invariant found == |cands|
    {
      var p := ProcessHead(heads[i], d70, house70, house80, jw);
      cands := cands + p;
      found := found + |p|;
      assert heads[..i + 1][..i] == heads[..i];
      i := i + 1;
    }
    assert heads[..i] == heads;
  }

  /** A relation entry as `finalizeResults` walks it: `r70` is the head, `r80`
      the relative. The entries carry no score, so every comparison of the
      sort is `NaN`, which the sort treats as a tie; a score of 0 on every
      entry stands for that. */
  function AsCandidate(e: Relative): Candidate {
    Candidate(e.R70(), e.R80(), 0, e.details, e.tier)
  }

  function AsCandidates(es: seq<Relative>): (cs: seq<Candidate>)
    ensures |cs| == |es|
    ensures forall i :: 0 <= i < |es| ==> cs[i] == AsCandidate(es[i])
  {
    seq(|es|, i requires 0 <= i < |es| => AsCandidate(es[i]))
  }

  /** `finalizeResults` over tier-1 entries: the sort leaves them in push
      order, and the greedy walk, which takes each head's 1880 line and each
      relative's 1870 line once, keeps a one-to-one subsequence of them, all
      of it in tier 1 and none in tiers 2 and 3. */
  lemma FinalizeTierOne(es: seq<Relative>)
    requires forall i :: 0 <= i < |es| ==> es[i].tier == 1
    ensures var walk := AsCandidates(es);
      && Ranking.SortByScore(walk) == walk
      && Ranking.WithTier(Ranking.Greedy(walk, {}, {}), 1) == Ranking.Greedy(walk, {}, {})
      && Ranking.WithTier(Ranking.Greedy(walk, {}, {}), 2) == []
      && Ranking.WithTier(Ranking.Greedy(walk, {}, {}), 3) == []
      && Ranking.OneToOne(Ranking.Greedy(walk, {}, {}))
  {
    var walk := AsCandidates(es);
    Ranking.SortTiesKeepOrder(walk, 0);
    var g := Ranking.Greedy(walk, {}, {});
    Ranking.GreedyFromInput(walk, {}, {});
    assert forall i :: 0 <= i < |g| ==> g[i].tier == 1 by {
      forall i | 0 <= i < |g| ensures g[i].tier == 1 {
        var j :| 0 <= j < |walk| && walk[j] == g[i];
      }
    }
    Ranking.WithTierUniform(g, 1, 2);
    Ranking.WithTierUniform(g, 1, 3);
    Ranking.GreedyOneToOne(walk, {}, {});
  }

  /** Every relation entry is tier 1, so the above applies to them. */
  lemma RelationsTierOne(d70: seq<Row>, d80: seq<Row>, jw: Similarity)
    ensures forall i :: 0 <= i < |Relations(d70, d80, jw)| ==> Relations(d70, d80, jw)[i].tier == 1
  {
    var es := Relations(d70, d80, jw);
    RelationsWellFormed(d70, d80, jw);
    forall i | 0 <= i < |es| ensures es[i].tier == 1 {
      assert es[i] in es;
    }
  }

  /** The closing `finalizeResults` call over tier-1 entries: tier 1 is the
      greedy one-to-one walk over the entries in push order and the other
      tiers stay empty. */
  method FinalizeEntries(es: seq<Relative>) returns (t1: seq<Candidate>, t2: seq<Candidate>, t3: seq<Candidate>, count: nat)
    requires forall i :: 0 <= i < |es| ==> es[i].tier == 1
    ensures t1 == Ranking.Greedy(AsCandidates(es), {}, {})
    ensures Ranking.OneToOne(t1)
    ensures t2 == [] && t3 == []
    ensures count == |t1|
  {
    FinalizeTierOne(es);
    var walk := Ranking.SortByScore(AsCandidates(es));
    t1, t2, t3, count := AppLogic.ResolveTiers(walk);
  }

  /** The indexing and the walk over every head of `findRelations`: it
      collects `Relations(d70, d80, jw)`, all of it tier 1, and counts it. */
  method Collect(d70: seq<Row>, d80: seq<Row>, jw: Similarity) returns (found: seq<Relative>, n: int)
    ensures found == Relations(d70, d80, jw)
    ensures forall i :: 0 <= i < |found| ==> found[i].tier == 1
    ensures n == |found|
  {
    var house80, heads80 := IndexLater(d80);
    var house70 := Households.GroupRows(d70, FamilyOf, true);
    found, n := ProcessHeads(heads80, d70, house70, house80, jw);
    RelationsTierOne(d70, d80, jw);
  }

  /** `app.candidates`, `relationsFound` and the tier lists and count of
      `finalizeResults` as `findRelations` leaves them. */
  /** The two phases of `findRelations` on values: the entries and their count,
      then the tier lists and count `finalizeResults` files for them. */
  method CollectAndFinalize(d70: seq<Row>, d80: seq<Row>, jw: Similarity)
    returns (found: seq<Relative>, n: int, t1: seq<Candidate>, t2: seq<Candidate>, t3: seq<Candidate>, c: nat)
    ensures found == Relations(d70, d80, jw) && n == |found|
    ensures t1 == Ranking.Greedy(AsCandidates(found), {}, {})
    ensures t2 == [] && t3 == [] && c == |t1|
  {
    found, n := Collect(d70, d80, jw);
    t1, t2, t3, c := FinalizeEntries(found);
  }

  class Finder {
    var candidates: seq<Relative>
    var relationsFound: int
    var tier1: seq<Candidate>
    var tier2: seq<Candidate>
    var tier3: seq<Candidate>
    var count: nat

    constructor ()
      ensures candidates == [] && relationsFound == 0
      ensures tier1 == [] && tier2 == [] && tier3 == [] && count == 0
    {
      candidates, relationsFound := [], 0;
      tier1, tier2, tier3, count := [], [], [], 0;
    }

    /** `findRelations` without the logging and the `setTimeout` chunks: the
        cleared candidate list ends up holding `Relations(d70, d80, jw)`,
        `relationsFound` counts it, and the closing `finalizeResults` files
        the greedy one-to-one walk over the entries, in push order, under
        tier 1 and counts it. */
    method FindRelations(d70: seq<Row>, d80: seq<Row>, jw: Similarity)
      modifies this
      ensures candidates == Relations(d70, d80, jw)
      ensures relationsFound == |candidates|
      ensures tier1 == Ranking.Greedy(AsCandidates(candidates), {}, {})
      ensures tier2 == [] && tier3 == []
      ensures count == |tier1|
    {
      var found, n, t1, t2, t3, c := CollectAndFinalize(d70, d80, jw);
      candidates, relationsFound, tier1, tier2, tier3, count := found, n, t1, t2, t3, c;
    }
  }
}
