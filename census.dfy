/** The entities every stage of the matcher shares: a census row, a scored
    candidate pair, the list of scoring rules that fired for a pair, an
    insertion-ordered map (JavaScript's `Map`) and the string-similarity
    oracle that stands in for `jaroWinkler`. */
module Census {
  import opened Strings

  datatype Option<T> = None | Some(value: T)

  /** One census row as the CSV loader delivers it: every column is a string,
      a missing column is "". The columns the code reads through
      `parseInt(...) || 0` are also kept as integers, already parsed, with 0
      for anything that does not parse. */
  datatype Row = Row(
    line: string,            // `line`: the row identifier, unique within one census
    id: string,              // `id`
    egoid: string,           // `egoid`: persisted person id
    egoidNum: int,           // parseInt(egoid), 0 when it does not parse
    firstName: string,       // `first_name`
    middleName: string,      // `middle_name`
    lastName: string,        // `last_name`
    lastNameUnderscore: string, // `last_name_` (a column-name variant)
    lastNameTypo: string,    // `last-_name` (the misspelt 1880 column)
    fullName: string,        // `full_name`
    normFirstName: string,   // `norm_first_name`
    nysiisLastName: string,  // `nysiis_last_name`
    nysiisFirstName: string, // `nysiis_first_name`
    gender: string,          // `gender`
    race: string,            // `race`
    birthYear: string,       // `birth_year` as text
    birthYearNum: int,       // parseInt(birth_year) || 0
    birthYear10: string,     // `birth_year_10`, the coarsened birth year
    age: string,             // `age` as text
    ageNum: int,             // parseInt(age) || 0
    birthPlace: string,      // `birth_place`
    occupation: string,      // `occupation`
    normOccupation: string,  // `norm_occupation`
    familyNumber: string,    // `family_number`
    family: string,          // `family`
    dwelling: string,        // `dwelling`
    relation: string,        // `relation` to the head of household
    head: string,            // `head`: "Y" for the head of household
    marital: string,         // `marital`
    maritalStatus: string,   // `marital_status`
    spouse: string,          // `spouse`: comma-joined ego ids
    children: string,        // `children`
    parent: string,          // `parent`
    siblings: string,        // `siblings`
    auntsUncles: string      // `aunts_uncles`
  )

  /** A row with every column missing. */
  const Blank := Row("", "", "", 0, "", "", "", "", "", "", "", "", "", "", "", "", 0, "", "", 0,
                     "", "", "", "", "", "", "", "", "", "", "", "", "", "", "")

  /** One candidate pair: a row of the earlier census (1870), a row of the
      later one (1880), its score, the evidence text and its tier
      (0 = untiered, 1 = best). */
  datatype Candidate = Candidate(r70: Row, r80: Row, score: int, details: string, tier: int)

  /** What a pair scorer returns: `{ score, details }`. */
  datatype Scored = Scored(score: int, details: string)

  /** The key `${r70.line}-${r80.line}` under which a pair is stored. */
  function PairId(r70: Row, r80: Row): string {
    r70.line + "-" + r80.line
  }

  /** A scoring rule that was checked: which rule, its evidence label, the
      points it adds and whether its condition held. */
  datatype Check<K> = Check(kind: K, evidence: string, points: int, fired: bool)

  /** One rule, checked: `if (cond) { score += points; details.push(label); }` */
  function Rule<K>(cond: bool, kind: K, evidence: string, points: int): seq<Check<K>> {
    [Check(kind, evidence, points, cond)]
  }

  /** The checks so far, then one more. */
  function Push<K>(rs: seq<Check<K>>, cond: bool, kind: K, evidence: string, points: int): seq<Check<K>> {
    rs + Rule(cond, kind, evidence, points)
  }

  /** The score accumulated over the first `n` checks. */
  function TotalTo<K>(rs: seq<Check<K>>, n: nat): int
    requires n <= |rs|
  {
    if n == 0 then 0 else TotalTo(rs, n - 1) + (if rs[n - 1].fired then rs[n - 1].points else 0)
  }

  /** The accumulated score. */
  function Total<K>(rs: seq<Check<K>>): int {
    TotalTo(rs, |rs|)
  }

  /** The labels pushed by the first `n` checks. */
  function LabelsTo<K>(rs: seq<Check<K>>, n: nat): seq<string>
    requires n <= |rs|
  {
    if n == 0 then [] else LabelsTo(rs, n - 1) + (if rs[n - 1].fired then [rs[n - 1].evidence] else [])
  }

  /** The `details` array: the labels of the rules that fired, in order. */
  function Labels<K>(rs: seq<Check<K>>): seq<string> {
    LabelsTo(rs, |rs|)
  }

  /** `details.join(", ")` */
  function Details<K>(rs: seq<Check<K>>): string {
    Join(", ", Labels(rs))
  }

  function ScoredOf<K>(rs: seq<Check<K>>): Scored {
    Scored(Total(rs), Details(rs))
  }

  /** How many of the first `n` checks fired a rule of a kind satisfying `ks`. */
  function CountTo<K>(rs: seq<Check<K>>, n: nat, ks: K -> bool): nat
    requires n <= |rs|
  {
    if n == 0 then 0 else CountTo(rs, n - 1, ks) + (if rs[n - 1].fired && ks(rs[n - 1].kind) then 1 else 0)
  }

  /** How many of the rules that fired are of a kind satisfying `ks`. */
  function CountKinds<K>(rs: seq<Check<K>>, ks: K -> bool): nat {
    CountTo(rs, |rs|, ks)
  }

  /** A rule of kind `k` fired among the first `n` checks. */
  predicate HasTo<K(==)>(rs: seq<Check<K>>, n: nat, k: K)
    requires n <= |rs|
  {
    n > 0 && ((rs[n - 1].fired && rs[n - 1].kind == k) || HasTo(rs, n - 1, k))
  }

  /** A rule of kind `k` fired. */
  predicate Has<K(==)>(rs: seq<Check<K>>, k: K) {
    HasTo(rs, |rs|, k)
  }

  /** A single check adds its points and fires its kind exactly when its condition holds. */
  lemma RuleFacts<K>(cond: bool, kind: K, evidence: string, points: int, k: K)
    ensures Has(Rule(cond, kind, evidence, points), k) <==> cond && kind == k
    ensures Total(Rule(cond, kind, evidence, points)) == if cond then points else 0
  {
    var r := Rule(cond, kind, evidence, points);
    assert TotalTo(r, 0) == 0 && !HasTo(r, 0, k);
  }

  /** The first `n` checks of a longer list add up to the same score. */
  lemma {:induction false} TotalPrefix<K>(rs: seq<Check<K>>, ts: seq<Check<K>>, n: nat)
    requires n <= |rs|
    ensures TotalTo(rs + ts, n) == TotalTo(rs, n)
  {
    if n > 0 {
      TotalPrefix(rs, ts, n - 1);
    }
  }

  lemma {:induction false} TotalSuffix<K>(rs: seq<Check<K>>, ts: seq<Check<K>>, n: nat)
    requires n <= |ts|
    ensures TotalTo(rs + ts, |rs| + n) == Total(rs) + TotalTo(ts, n)
  {
    if n == 0 {
      TotalPrefix(rs, ts, |rs|);
    } else {
      TotalSuffix(rs, ts, n - 1);
      assert (rs + ts)[|rs| + n - 1] == ts[n - 1];
    }
  }

  /** The score of two check lists one after the other. */
  lemma TotalAppend<K>(rs: seq<Check<K>>, ts: seq<Check<K>>)
    ensures Total(rs + ts) == Total(rs) + Total(ts)
  {
    TotalSuffix(rs, ts, |ts|);
  }

  lemma {:induction false} CountPrefix<K>(rs: seq<Check<K>>, ts: seq<Check<K>>, n: nat, ks: K -> bool)
    requires n <= |rs|
    ensures CountTo(rs + ts, n, ks) == CountTo(rs, n, ks)
  {
    if n > 0 {
      CountPrefix(rs, ts, n - 1, ks);
    }
  }

  lemma {:induction false} CountSuffix<K>(rs: seq<Check<K>>, ts: seq<Check<K>>, n: nat, ks: K -> bool)
    requires n <= |ts|
    ensures CountTo(rs + ts, |rs| + n, ks) == CountKinds(rs, ks) + CountTo(ts, n, ks)
  {
    if n == 0 {
      CountPrefix(rs, ts, |rs|, ks);
    } else {
      CountSuffix(rs, ts, n - 1, ks);
      assert (rs + ts)[|rs| + n - 1] == ts[n - 1];
    }
  }

  /** The count of two check lists one after the other. */
  lemma CountAppend<K>(rs: seq<Check<K>>, ts: seq<Check<K>>, ks: K -> bool)
    ensures CountKinds(rs + ts, ks) == CountKinds(rs, ks) + CountKinds(ts, ks)
  {
    CountSuffix(rs, ts, |ts|, ks);
  }

  lemma {:induction false} HasPrefix<K>(rs: seq<Check<K>>, ts: seq<Check<K>>, n: nat, k: K)
    requires n <= |rs|
    ensures HasTo(rs + ts, n, k) <==> HasTo(rs, n, k)
  {
    if n > 0 {
      HasPrefix(rs, ts, n - 1, k);
    }
  }

  lemma {:induction false} HasSuffix<K>(rs: seq<Check<K>>, ts: seq<Check<K>>, n: nat, k: K)
    requires n <= |ts|
    ensures HasTo(rs + ts, |rs| + n, k) <==> Has(rs, k) || HasTo(ts, n, k)
  {
    if n == 0 {
      HasPrefix(rs, ts, |rs|, k);
    } else {
      HasSuffix(rs, ts, n - 1, k);
      assert (rs + ts)[|rs| + n - 1] == ts[n - 1];
    }
  }

  /** A kind fired in two check lists one after the other when it fired in either. */
  lemma HasAppend<K>(rs: seq<Check<K>>, ts: seq<Check<K>>, k: K)
    ensures Has(rs + ts, k) <==> Has(rs, k) || Has(ts, k)
  {
    HasSuffix(rs, ts, |ts|, k);
  }

  /** What one more check adds. */
  lemma PushFacts<K>(rs: seq<Check<K>>, cond: bool, kind: K, evidence: string, points: int, ks: K -> bool)
    ensures Total(Push(rs, cond, kind, evidence, points)) == Total(rs) + (if cond then points else 0)
    ensures CountKinds(Push(rs, cond, kind, evidence, points), ks)
         == CountKinds(rs, ks) + (if cond && ks(kind) then 1 else 0)
  {
    var f := Rule(cond, kind, evidence, points);
    TotalPrefix(rs, f, |rs|);
    CountPrefix(rs, f, |rs|, ks);
  }

  lemma HasPush<K>(rs: seq<Check<K>>, cond: bool, kind: K, evidence: string, points: int, k: K)
    ensures Has(Push(rs, cond, kind, evidence, points), k) <==> Has(rs, k) || (cond && kind == k)
  {
    HasPrefix(rs, Rule(cond, kind, evidence, points), |rs|, k);
  }

  /** Whether a kind fired is whether some check of that kind fired. */
  lemma {:induction false} HasToWitness<K>(rs: seq<Check<K>>, n: nat, k: K)
    requires n <= |rs|
    ensures HasTo(rs, n, k) <==> exists i :: 0 <= i < n && rs[i].fired && rs[i].kind == k
  {
    if n > 0 {
      HasToWitness(rs, n - 1, k);
    }
  }

  lemma HasWitness<K>(rs: seq<Check<K>>, k: K)
    ensures Has(rs, k) <==> exists i :: 0 <= i < |rs| && rs[i].fired && rs[i].kind == k
  {
    HasToWitness(rs, |rs|, k);
  }

  /** The total of at most one check. */
  lemma TotalSingle<K>(rs: seq<Check<K>>)
    requires |rs| <= 1
    ensures Total(rs) == if rs != [] && rs[0].fired then rs[0].points else 0
  {
    if rs != [] {
      assert TotalTo(rs, 0) == 0;
    }
  }

  /** No rule of `ks` fires among checks none of which is of `ks`. */
  lemma {:induction false} CountToBounded<K>(rs: seq<Check<K>>, n: nat, ks: K -> bool)
    requires n <= |rs|
    ensures CountTo(rs, n, ks) <= n
  {
    if n > 0 {
      CountToBounded(rs, n - 1, ks);
    }
  }

  /** No more rules of a kind fire than there are rules. */
  lemma CountBounded<K>(rs: seq<Check<K>>, ks: K -> bool)
    ensures CountKinds(rs, ks) <= |rs|
  {
    CountToBounded(rs, |rs|, ks);
  }

  lemma {:induction false} CountNoneTo<K>(rs: seq<Check<K>>, n: nat, ks: K -> bool)
    requires n <= |rs|
    requires forall i :: 0 <= i < |rs| ==> !ks(rs[i].kind)
    ensures CountTo(rs, n, ks) == 0
  {
    if n > 0 {
      CountNoneTo(rs, n - 1, ks);
    }
  }

  lemma CountNone<K>(rs: seq<Check<K>>, ks: K -> bool)
    requires forall i :: 0 <= i < |rs| ==> !ks(rs[i].kind)
    ensures CountKinds(rs, ks) == 0
  {
    CountNoneTo(rs, |rs|, ks);
  }

  /** The string-similarity function `jaroWinkler`, passed in as a parameter. */
  type Similarity = (string, string) -> real

  /** A JavaScript `Map`: its entries and the order in which keys were first inserted. */
  datatype OrderedMap<K(==,!new), V> = OrderedMap(keys: seq<K>, entries: map<K, V>) {

    ghost predicate Valid() {
      && (forall i, j :: 0 <= i < j < |keys| ==> keys[i] != keys[j])
      && (forall k :: k in entries <==> k in keys)
    }

    /** `map.get(k)` */
    function Get(k: K): Option<V> {
      if k in entries then Some(entries[k]) else None
    }

    /** `map.set(k, v)`: a new key goes to the end, an existing key keeps its place. */
    function Set(k: K, v: V): (r: OrderedMap<K, V>)
      ensures r.entries == entries[k := v]
      ensures k in entries ==> r.keys == keys
      ensures k !in entries ==> r.keys == keys + [k]
      ensures Valid() ==> r.Valid()
    {
      if k in entries then OrderedMap(keys, entries[k := v]) else OrderedMap(keys + [k], entries[k := v])
    }

    /** `Array.from(map.values())` */
    function Values(): (vs: seq<V>)
      requires Valid()
      ensures |vs| == |keys|
      ensures forall i :: 0 <= i < |keys| ==> vs[i] == entries[keys[i]]
    {
      seq(|keys|, i requires 0 <= i < |keys| => entries[keys[i]])
    }
  }

  function EmptyMap<K(==,!new), V>(): (m: OrderedMap<K, V>)
    ensures m.Valid() && m.keys == [] && m.entries == map[]
  {
    OrderedMap([], map[])
  }
}
