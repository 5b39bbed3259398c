/** The Turtle writer: every census record becomes one block of RDF
    statements about `person:<id>`, after the nine `@prefix` lines. */
module Triplets {
  import opened Strings

  /** A field value as the exported records hold it: absent (`undefined` or
      `null`), a string, an integer, a boolean, or an array of ids already
      rendered as strings. */
  datatype Value = Missing | Text(s: string) | Number(n: int) | Flag(b: bool) | List(items: seq<string>)

  /** A record: field name to value; a name it lacks reads as `Missing`. */
  type Record = map<string, Value>

  function Get(p: Record, field: string): Value {
    if field in p then p[field] else Missing
  }

  /** JavaScript truthiness: "", 0, false and absent are falsy, every array is truthy. */
  predicate Truthy(v: Value) {
    match v
    case Missing => false
    case Text(s) => s != ""
    case Number(n) => n != 0
    case Flag(b) => b
    case List(_) => true
  }

  /** The text a value turns into in a template literal or through `toString()`. */
  function Display(v: Value): string {
    match v
    case Missing => "undefined"
    case Text(s) => s
    case Number(n) => IntToString(n)
    case Flag(b) => if b then "true" else "false"
    case List(items) => Join(",", items)
  }

  // ---------------------------------------------------------------------
  // esc
  // ---------------------------------------------------------------------

  /** `replace(/\\/g, '\\\\')`: every backslash doubled. */
  function EscapeBackslashes(s: string): string {
    if s == [] then [] else (if s[0] == '\\' then "\\\\" else [s[0]]) + EscapeBackslashes(s[1..])
  }

  /** `replace(/"/g, '\\"')`: every double quote preceded by a backslash. */
  function EscapeQuotes(s: string): string {
    if s == [] then [] else (if s[0] == '"' then "\\\"" else [s[0]]) + EscapeQuotes(s[1..])
  }

  /** The two replacements of `esc`, backslashes first. */
  function Escape(s: string): string {
    EscapeQuotes(EscapeBackslashes(s))
  }

  /** Reads a Turtle string body back: a backslash and the character after it
      stand for that character. */
  function Unescape(t: string): string
    decreases |t|
  {
    if t == [] then []
    else if t[0] == '\\' && |t| >= 2 then [t[1]] + Unescape(t[2..])
    else [t[0]] + Unescape(t[1..])
  }

  /** The escaping of one character, as both replacements together treat it. */
  function EscapeChar(c: char): string {
    if c == '\\' then "\\\\" else if c == '"' then "\\\"" else [c]
  }

  function EscapeEach(s: string): string {
    if s == [] then [] else EscapeChar(s[0]) + EscapeEach(s[1..])
  }

  lemma {:induction false} EscapeQuotesAppend(a: string, b: string)
    ensures EscapeQuotes(a + b) == EscapeQuotes(a) + EscapeQuotes(b)
    decreases |a|
  {
    if a == [] {
      assert a + b == b;
    } else {
      var piece := if a[0] == '"' then "\\\"" else [a[0]];
      assert (a + b)[0] == a[0];
      assert (a + b)[1..] == a[1..] + b;
      assert EscapeQuotes(a + b) == piece + EscapeQuotes(a[1..] + b);
      EscapeQuotesAppend(a[1..], b);
      assert EscapeQuotes(a) == piece + EscapeQuotes(a[1..]);
    }
  }

  /** Doubling the backslashes first means the second pass never sees a
      backslash it added itself: the two passes escape each character once. */
  lemma {:induction false} EscapeInOnePass(s: string)
    ensures Escape(s) == EscapeEach(s)
    decreases |s|
  {
    if s != [] {
      var head := if s[0] == '\\' then "\\\\" else [s[0]];
      assert EscapeBackslashes(s) == head + EscapeBackslashes(s[1..]);
      EscapeQuotesAppend(head, EscapeBackslashes(s[1..]));
      assert EscapeQuotes(head) == EscapeChar(s[0]);
      EscapeInOnePass(s[1..]);
    }
  }

  lemma {:induction false} UnescapeEach(s: string)
    ensures Unescape(EscapeEach(s)) == s
    decreases |s|
  {
    if s != [] {
      var t := EscapeEach(s);
      assert t == EscapeChar(s[0]) + EscapeEach(s[1..]);
      if s[0] == '\\' || s[0] == '"' {
        assert t[2..] == EscapeEach(s[1..]);
      } else {
        assert t[1..] == EscapeEach(s[1..]);
      }
      UnescapeEach(s[1..]);
    }
  }

  /** Un-escaping the output of the two replacements gives back the input. */
  lemma EscapeRoundTrip(s: string)
    ensures Unescape(Escape(s)) == s
  {
    EscapeInOnePass(s);
    UnescapeEach(s);
  }

  /** `esc(val)`: "" for an absent value or "", otherwise the value's text
      with backslashes and double quotes escaped. */
  function Esc(v: Value): (r: string)
    ensures v.Missing? || v == Text("") ==> r == ""
    ensures !v.Missing? ==> Unescape(r) == Display(v)
  {
    if v.Missing? || v == Text("") then ""
    else
      EscapeRoundTrip(Display(v));
      Escape(Display(v))
  }

  /** The body of a short double-quoted Turtle string (section 6.4 of the W3C
      RDF 1.1 Turtle recommendation): no bare `"`, backslash or line break,
      and every backslash starts one of the listed escape sequences. */
  predicate TurtleStringBody(t: string)
    decreases |t|
  {
    if t == [] then true
    else if t[0] == '\\' then
      |t| >= 2 && t[1] in "tbnrf\"'\\" && TurtleStringBody(t[2..])
    else
      t[0] != '"' && t[0] != '\n' && t[0] != '\r' && TurtleStringBody(t[1..])
  }

  lemma {:induction false} EscapeEachBody(s: string)
    requires '\n' !in s && '\r' !in s
    ensures TurtleStringBody(EscapeEach(s))
    decreases |s|
  {
    if s != [] {
      var t := EscapeEach(s);
      assert t == EscapeChar(s[0]) + EscapeEach(s[1..]);
      assert '\n' !in s[1..] && '\r' !in s[1..] by {
        assert forall i :: 0 <= i < |s[1..]| ==> s[1..][i] == s[i + 1];
      }
      EscapeEachBody(s[1..]);
      if s[0] == '\\' || s[0] == '"' {
        assert t[2..] == EscapeEach(s[1..]);
      } else {
        assert t[1..] == EscapeEach(s[1..]);
      }
    }
  }

  /** A value without line breaks becomes a well-formed Turtle string body:
      the quoted literal cannot end early. */
  lemma EscapeIsStringBody(s: string)
    requires '\n' !in s && '\r' !in s
    ensures TurtleStringBody(Escape(s))
  {
    EscapeInOnePass(s);
    EscapeEachBody(s);
  }

  /** Line breaks pass through `esc` unescaped, which a short Turtle string
      does not allow. */
  lemma LineBreakStaysRaw()
    ensures Escape("a\nb") == "a\nb"
    ensures !TurtleStringBody(Escape("a\nb"))
  {
    assert EscapeBackslashes("a\nb") == "a\nb";
    assert EscapeQuotes("a\nb") == "a\nb";
    assert !TurtleStringBody("\nb");
  }

  // ---------------------------------------------------------------------
  // Subject and literal properties
  // ---------------------------------------------------------------------

  /** `p.egoid || p.id || p.line` */
  function SubjectId(p: Record): string {
    if Truthy(Get(p, "egoid")) then Display(Get(p, "egoid"))
    else if Truthy(Get(p, "id")) then Display(Get(p, "id"))
    else Display(Get(p, "line"))
  }

  function Subject(p: Record): (r: string)
    ensures |r| >= 7 && r[..7] == "person:"
  {
    "person:" + SubjectId(p)
  }

  /** The id the subject takes: the first of egoid, id, line that is truthy. */
  lemma SubjectFirstTruthy(p: Record, q: Record)
    ensures Truthy(Get(p, "egoid")) && Get(p, "egoid") == Get(q, "egoid") ==> Subject(p) == Subject(q)
    ensures !Truthy(Get(p, "egoid")) && !Truthy(Get(q, "egoid")) && Truthy(Get(p, "id")) && Get(p, "id") == Get(q, "id")
      ==> Subject(p) == Subject(q)
    ensures !Truthy(Get(p, "egoid")) && !Truthy(Get(p, "id")) && Get(p, "line").Text?
      ==> Subject(p) == "person:" + Get(p, "line").s
  {
  }

  /** One row of the mapping table: a typed literal `pred "esc(v)"^^xsd:type`
      or a link to another node, `pred prefix:esc(v)`. */
  datatype Mapping = Typed(field: string, pred: string, xsd: string) | Link(field: string, pred: string, prefix: string)

  /** The mapping table, in the order the properties are written. */
  const Table: seq<Mapping> := [
    Typed("first_name", "foaf:givenName", "string"),
    Typed("full_name", "foaf:fullName", "string"),
    Typed("last_name", "foaf:familyName", "string"),
    Typed("gender", "foaf:gender", "string"),
    Typed("birth_year", "cen:birthYear", "integer"),
    Typed("race", "cen:race", "string"),
    Typed("egoid", "cen:egoid", "string"),
    Typed("occupation", "cen:occupation", "string"),
    Typed("birth_place", "cen:birthPlace", "string"),
    Typed("head", "cen:isHeadOfHousehold", "boolean"),
    Link("family", "cen:memberOfFamily", "household:"),
    Link("dwelling", "cen:livesInDwelling", "dwelling:")
  ]

  /** The statement one mapping writes for record `p`. */
  function PropLine(p: Record, m: Mapping): string {
    match m
    case Typed(f, pred, xsd) => pred + " \"" + Esc(Get(p, f)) + "\"^^xsd:" + xsd
    case Link(f, pred, prefix) => pred + " " + prefix + Esc(Get(p, f))
  }

  /** `if (p.field) props.push(...)` for one mapping. */
  function Optional(p: Record, m: Mapping): seq<string> {
    if Truthy(Get(p, m.field)) then [PropLine(p, m)] else []
  }

  /** The literal and link properties of the first `n` mappings of `ms`, in order. */
  function OptionalTo(p: Record, ms: seq<Mapping>, n: nat): seq<string>
    requires n <= |ms|
  {
    if n == 0 then [] else OptionalTo(p, ms, n - 1) + Optional(p, ms[n - 1])
  }

  /** The literal and link properties of a record. */
  function LiteralProps(p: Record): seq<string> {
    OptionalTo(p, Table, |Table|)
  }

  /** The positions among the first `n` mappings whose field is truthy in `p`. */
  function TruthyTo(p: Record, ms: seq<Mapping>, n: nat): (ks: seq<nat>)
    requires n <= |ms|
    ensures forall k :: 0 <= k < |ks| ==> ks[k] < n && Truthy(Get(p, ms[ks[k]].field))
    ensures forall j :: 0 <= j < n && Truthy(Get(p, ms[j].field)) ==> j in ks
    ensures forall k, l :: 0 <= k < l < |ks| ==> ks[k] < ks[l]
  {
    if n == 0 then []
    else TruthyTo(p, ms, n - 1) + (if Truthy(Get(p, ms[n - 1].field)) then [n - 1] else [])
  }

  /** The statements of the mappings at positions `ks`, in that order. */
  function LinesAt(p: Record, ms: seq<Mapping>, ks: seq<nat>): (r: seq<string>)
    requires forall k :: 0 <= k < |ks| ==> ks[k] < |ms|
    ensures |r| == |ks|
  {
    if ks == [] then [] else LinesAt(p, ms, ks[..|ks| - 1]) + [PropLine(p, ms[ks[|ks| - 1]])]
  }

  lemma {:induction false} LinesAtIndex(p: Record, ms: seq<Mapping>, ks: seq<nat>)
    requires forall k :: 0 <= k < |ks| ==> ks[k] < |ms|
    ensures forall k :: 0 <= k < |ks| ==> LinesAt(p, ms, ks)[k] == PropLine(p, ms[ks[k]])
  {
    if ks != [] {
      var init := ks[..|ks| - 1];
      LinesAtIndex(p, ms, init);
      assert forall k :: 0 <= k < |init| ==> init[k] == ks[k];
    }
  }

  lemma {:induction false} OptionalToLines(p: Record, ms: seq<Mapping>, n: nat)
    requires n <= |ms|
    ensures OptionalTo(p, ms, n) == LinesAt(p, ms, TruthyTo(p, ms, n))
  {
    if n > 0 {
      OptionalToLines(p, ms, n - 1);
      var ks := TruthyTo(p, ms, n - 1);
      if Truthy(Get(p, ms[n - 1].field)) {
        var ks' := ks + [n - 1];
        assert TruthyTo(p, ms, n) == ks';
        assert OptionalTo(p, ms, n) == OptionalTo(p, ms, n - 1) + [PropLine(p, ms[n - 1])];
        assert ks'[..|ks'| - 1] == ks;
        assert LinesAt(p, ms, ks') == LinesAt(p, ms, ks) + [PropLine(p, ms[n - 1])];
      } else {
        assert TruthyTo(p, ms, n) == ks;
        assert OptionalTo(p, ms, n) == OptionalTo(p, ms, n - 1);
      }
    }
  }

  /** The literal properties are exactly the statements of the mappings whose
      field is truthy, each once, in table order. */
  lemma LiteralPropsInOrder(p: Record)
    ensures var ks := TruthyTo(p, Table, |Table|);
      LiteralProps(p) == LinesAt(p, Table, ks)
      && (forall k :: 0 <= k < |ks| ==> LiteralProps(p)[k] == PropLine(p, Table[ks[k]]))
  {
    OptionalToLines(p, Table, |Table|);
    LinesAtIndex(p, Table, TruthyTo(p, Table, |Table|));
  }

  // ---------------------------------------------------------------------
  // processRel
  // ---------------------------------------------------------------------

  /** The trimmed, non-empty ids of a list, in list order. */
  function Ids(xs: seq<string>): seq<string> {
    if xs == [] then []
    else Ids(xs[..|xs| - 1]) + (if Trim(xs[|xs| - 1]) != "" then [Trim(xs[|xs| - 1])] else [])
  }

  lemma {:induction false} IdsShape(xs: seq<string>)
    ensures |Ids(xs)| <= |xs|
    ensures forall k :: 0 <= k < |Ids(xs)| ==> Ids(xs)[k] != "" && Trimmed(Ids(xs)[k])
  {
    if xs != [] {
      IdsShape(xs[..|xs| - 1]);
    }
  }

  /** Ids are kept unchanged from a list whose entries are all trimmed and non-empty. */
  lemma {:induction false} IdsOfClean(xs: seq<string>)
    requires forall k :: 0 <= k < |xs| ==> xs[k] != "" && Trimmed(xs[k])
    ensures Ids(xs) == xs
  {
    if xs != [] {
      var init, last := xs[..|xs| - 1], xs[|xs| - 1];
      forall k | 0 <= k < |init| ensures init[k] != "" && Trimmed(init[k]) {
        assert init[k] == xs[k];
      }
      IdsOfClean(init);
      assert last != "" && Trim(last) == last;
      assert Ids(xs) == init + [last];
      assert init + [last] == xs;
    }
  }

  /** Dropping blank entries first changes nothing: the per-id check drops them too. */
  lemma {:induction false} IdsNonBlank(xs: seq<string>)
    ensures Ids(NonBlank(xs)) == Ids(xs)
  {
    if xs != [] {
      IdsNonBlank(xs[..|xs| - 1]);
      if Trim(xs[|xs| - 1]) != "" {
        var r := NonBlank(xs[..|xs| - 1]) + [xs[|xs| - 1]];
        assert r[..|r| - 1] == NonBlank(xs[..|xs| - 1]);
      }
    }
  }

  /** The ids `processRel` reads from one field value. */
  function RelIds(v: Value): seq<string> {
    match v
    case Text(s) => Ids(Split(s, ','))
    case List(items) => Ids(items)
    case _ => []
  }

  /** One `verb objPrefix<id>` statement per id, in order. */
  function Statements(ids: seq<string>, verb: string, objPrefix: string): seq<string>
  {
    if ids == [] then [] else Statements(ids[..|ids| - 1], verb, objPrefix) + [verb + " " + objPrefix + ids[|ids| - 1]]
  }

  lemma {:induction false} StatementsIndex(ids: seq<string>, verb: string, objPrefix: string)
    ensures |Statements(ids, verb, objPrefix)| == |ids|
    ensures forall k :: 0 <= k < |ids| ==> Statements(ids, verb, objPrefix)[k] == verb + " " + objPrefix + ids[k]
  {
    if ids != [] {
      var init := ids[..|ids| - 1];
      StatementsIndex(init, verb, objPrefix);
      assert forall k :: 0 <= k < |init| ==> init[k] == ids[k];
    }
  }

  /** The statements `processRel(field, verb, objPrefix)` pushes. */
  function RelLines(p: Record, field: string, verb: string, objPrefix: string): seq<string> {
    Statements(RelIds(Get(p, field)), verb, objPrefix)
  }

  lemma TrimWithout(s: string, c: char)
    requires c !in s
    ensures c !in Trim(s)
  {
    var t := TrimStart(s);
    assert c !in t;
  }

  lemma {:induction false} IdsWithout(xs: seq<string>, c: char)
    requires forall k :: 0 <= k < |xs| ==> c !in xs[k]
    ensures forall k :: 0 <= k < |Ids(xs)| ==> c !in Ids(xs)[k]
  {
    if xs != [] {
      IdsWithout(xs[..|xs| - 1], c);
      TrimWithout(xs[|xs| - 1], c);
    }
  }

  /** A comma-separated field gives one id per non-blank piece: each trimmed,
      non-empty and comma-free; a field that is already a clean list gives back
      its pieces, so joining the ids with commas restores it. */
  lemma RelIdsOfText(s: string)
    ensures forall k :: 0 <= k < |RelIds(Text(s))| ==>
      RelIds(Text(s))[k] != "" && Trimmed(RelIds(Text(s))[k]) && ',' !in RelIds(Text(s))[k]
    ensures |RelIds(Text(s))| <= |Split(s, ',')|
    ensures (forall k :: 0 <= k < |Split(s, ',')| ==> Split(s, ',')[k] != "" && Trimmed(Split(s, ',')[k]))
      ==> Join(",", RelIds(Text(s))) == s
  {
    var pieces := Split(s, ',');
    IdsShape(pieces);
    IdsWithout(pieces, ',');
    if forall k :: 0 <= k < |pieces| ==> pieces[k] != "" && Trimmed(pieces[k]) {
      IdsOfClean(pieces);
    }
  }

  /** One more piece adds its trimmed id unless that is blank. */
  lemma IdsStep(list: seq<string>, i: nat)
    requires i < |list|
    ensures Trim(list[i]) != "" ==> Ids(list[..i + 1]) == Ids(list[..i]) + [Trim(list[i])]
    ensures Trim(list[i]) == "" ==> Ids(list[..i + 1]) == Ids(list[..i])
  {
    assert list[..i + 1][..i] == list[..i];
  }

  /** One more id adds its statement at the end. */
  lemma StatementsSnoc(ids: seq<string>, id: string, verb: string, objPrefix: string)
    ensures Statements(ids + [id], verb, objPrefix) == Statements(ids, verb, objPrefix) + [verb + " " + objPrefix + id]
  {
    assert (ids + [id])[..|ids|] == ids;
  }

  /** `list.forEach(id => { id = id.toString().trim(); if (id) props.push(...) })` */
  method PushIds(list: seq<string>, verb: string, objPrefix: string) returns (pushed: seq<string>)
    ensures pushed == Statements(Ids(list), verb, objPrefix)
  {
    pushed := [];
    var i := 0;
    assert list[..0] == [];
    while i < |list|
      invariant 0 <= i <= |list|
      invariant pushed == Statements(Ids(list[..i]), verb, objPrefix)
    {
      IdsStep(list, i);
      var id := Trim(list[i]);
      if id != "" {
        StatementsSnoc(Ids(list[..i]), id, verb, objPrefix);
        pushed := pushed + [verb + " " + objPrefix + id];
      }
      i := i + 1;
    }
    assert list[..i] == list;
  }

  /** `processRel`: the value of the field, if truthy, is read as a
      comma-separated string or an array; one statement per non-blank id. */
  method ProcessRel(p: Record, field: string, verb: string, objPrefix: string) returns (pushed: seq<string>)
    ensures pushed == RelLines(p, field, verb, objPrefix)
  {
    pushed := [];
    var v := Get(p, field);
    if !Truthy(v) {
      return;
    }
    if v.Text? {
      var list := NonBlank(Split(v.s, ','));
      IdsNonBlank(Split(v.s, ','));
      pushed := PushIds(list, verb, objPrefix);
    } else if v.List? {
      pushed := PushIds(v.items, verb, objPrefix);
    }
  }

  /** A relationship field and the predicate its ids are written with. */
  datatype RelMapping = RelMapping(field: string, verb: string)

  /** The five relationship fields, in the order they are written. */
  const RelTable: seq<RelMapping> := [
    RelMapping("spouse", "rel:spouseOf"),
    RelMapping("children", "rel:parentOf"),
    RelMapping("parent", "rel:childOf"),
    RelMapping("siblings", "rel:siblingOf"),
    RelMapping("aunts_uncles", "cen:nephewNieceOf")
  ]

  /** The relationship statements of the first `n` fields of `rs`, in order. */
  function RelTo(p: Record, rs: seq<RelMapping>, n: nat): seq<string>
    requires n <= |rs|
  {
    if n == 0 then [] else RelTo(p, rs, n - 1) + RelLines(p, rs[n - 1].field, rs[n - 1].verb, "person:")
  }

  function RelProps(p: Record): seq<string> {
    RelTo(p, RelTable, |RelTable|)
  }

  /** The statement every record's block starts with. */
  const TypeStatement := "rdf:type foaf:Person"

  /** All statements about one record, starting with its type. */
  function Props(p: Record): (r: seq<string>)
    ensures |r| >= 1 && r[0] == TypeStatement
  {
    [TypeStatement] + LiteralProps(p) + RelProps(p)
  }

  /** `if (p.<field>) props.push(<statement>)` for the `n`-th mapping of `ms`. */
  method PushLiteral(props: seq<string>, p: Record, ms: seq<Mapping>, n: nat) returns (r: seq<string>)
    requires 0 < n <= |ms| && props == [TypeStatement] + OptionalTo(p, ms, n - 1)
    ensures r == [TypeStatement] + OptionalTo(p, ms, n)
  {
    r := props;
    if Truthy(Get(p, ms[n - 1].field)) {
      r := r + [PropLine(p, ms[n - 1])];
    }
  }

  /** One more relationship field appends its statements. */
  lemma RelToStep(base: seq<string>, p: Record, rs: seq<RelMapping>, n: nat)
    requires 0 < n <= |rs|
    ensures base + RelTo(p, rs, n) == (base + RelTo(p, rs, n - 1)) + RelLines(p, rs[n - 1].field, rs[n - 1].verb, "person:")
  {
  }

  /** `processRel(<field>, <verb>)` for the `n`-th relationship field of `rs`. */
  method PushRel(props: seq<string>, base: seq<string>, p: Record, rs: seq<RelMapping>, n: nat) returns (r: seq<string>)
    requires 0 < n <= |rs| && props == base + RelTo(p, rs, n - 1)
    ensures r == base + RelTo(p, rs, n)
  {
    var pushed := ProcessRel(p, rs[n - 1].field, rs[n - 1].verb, "person:");
    RelToStep(base, p, rs, n);
    r := props + pushed;
  }

  /** The `props` array built for one record: the type, the twelve mappings
      in table order, then the five relationship fields. */
  method BuildProps(p: Record) returns (props: seq<string>)
    ensures props == Props(p)
  {
    props := [TypeStatement];
    props := PushLiteral(props, p, Table, 1);   // first_name
    props := PushLiteral(props, p, Table, 2);   // full_name
    props := PushLiteral(props, p, Table, 3);   // last_name
    props := PushLiteral(props, p, Table, 4);   // gender
    props := PushLiteral(props, p, Table, 5);   // birth_year
    props := PushLiteral(props, p, Table, 6);   // race
    props := PushLiteral(props, p, Table, 7);   // egoid
    props := PushLiteral(props, p, Table, 8);   // occupation
    props := PushLiteral(props, p, Table, 9);   // birth_place
    props := PushLiteral(props, p, Table, 10);  // head
    props := PushLiteral(props, p, Table, 11);  // family
    props := PushLiteral(props, p, Table, 12);  // dwelling
    var lit := props;
    assert lit == lit + RelTo(p, RelTable, 0);
    props := PushRel(props, lit, p, RelTable, 1);   // spouse
    props := PushRel(props, lit, p, RelTable, 2);   // children
    props := PushRel(props, lit, p, RelTable, 3);   // parent
    props := PushRel(props, lit, p, RelTable, 4);   // siblings
    props := PushRel(props, lit, p, RelTable, 5);   // aunts_uncles
  }

  // ---------------------------------------------------------------------
  // generateTriplets
  // ---------------------------------------------------------------------

  /** The nine `@prefix` lines joined by line breaks: `output`'s first entry. */
  const PrefixBlock: string :=
    "@prefix rdf: <http://www.w3.org/1999/02/22-rdf-syntax-ns#> .\n"
    + "@prefix owl: <http://www.w3.org/2002/07/owl#> .\n"
    + "@prefix xsd: <http://www.w3.org/2001/XMLSchema#> .\n"
    + "@prefix foaf: <http://xmlns.com/foaf/0.1/> .\n"
    + "@prefix rel: <http://purl.org/vocab/relationship/> .\n"
    + "@prefix cen: <http://albemarle-census.org/ontology#> .\n"
    + "@prefix person: <http://albemarle-census.org/person/> .\n"
    + "@prefix household: <http://albemarle-census.org/household/> .\n"
    + "@prefix dwelling: <http://albemarle-census.org/dwelling/> ."

  /** A subject with its statements separated by ` ;` and a line break, closed by ` .`. */
  function Statement(subject: string, props: seq<string>): string {
    subject + " " + Join(" ;\n    ", props) + " ."
  }

  /** The block of one record. */
  function Block(p: Record): string {
    Statement(Subject(p), Props(p))
  }

  /** One block per record, in dataset order. */
  function Blocks(ds: seq<Record>): seq<string> {
    MapEach(ds, Block)
  }

  /** `output.join('\n')` for an `output` holding the prefix text, an empty
      entry and the blocks. */
  function Output(prefixText: string, blocks: seq<string>): string {
    Join("\n", [prefixText, ""] + blocks)
  }

  /** The whole output of a dataset. */
  function Document(ds: seq<Record>): string {
    Output(PrefixBlock, Blocks(ds))
  }

  /** Exactly one block per record, the `i`-th block being that of the `i`-th record. */
  lemma BlocksPerRecord(ds: seq<Record>)
    ensures |Blocks(ds)| == |ds|
    ensures forall i :: 0 <= i < |ds| ==> Blocks(ds)[i] == Block(ds[i])
  {
    MapEachIndex(ds, Block);
  }

  /** A statement list that starts with the type opens the block with the
      subject and the type, and the block is closed by ` .`. */
  lemma StatementShape(subject: string, props: seq<string>)
    requires |props| >= 1 && props[0] == TypeStatement
    ensures Statement(subject, props)[..|subject| + 21] == subject + " " + TypeStatement
    ensures Statement(subject, props)[|Statement(subject, props)| - 2..] == " ."
  {
    var body := Join(" ;\n    ", props);
    assert body[..20] == TypeStatement by {
      if |props| > 1 {
        assert body == props[0] + " ;\n    " + Join(" ;\n    ", props[1..]);
      }
    }
    assert Statement(subject, props) == (subject + " " + body) + " .";
  }

  /** Every record's block opens with its subject and its type statement and
      is closed by ` .`. */
  lemma BlockShape(p: Record)
    ensures Block(p)[..|Subject(p)| + 21] == Subject(p) + " " + TypeStatement
    ensures Block(p)[|Block(p)| - 2..] == " ."
  {
    StatementShape(Subject(p), Props(p));
  }

  /** The output is the prefix text, a line break, an empty line and, when
      there are blocks, one more line break followed by the blocks. */
  lemma OutputShape(prefixText: string, blocks: seq<string>)
    ensures Output(prefixText, blocks)
      == prefixText + "\n" + (if blocks == [] then "" else "\n" + Join("\n", blocks))
  {
    var out := [prefixText, ""] + blocks;
    var tail := out[1..];
    assert tail == [""] + blocks;
    assert Join("\n", out) == prefixText + "\n" + Join("\n", tail);
    if blocks != [] {
      assert tail[1..] == blocks;
      assert Join("\n", tail) == "" + "\n" + Join("\n", blocks);
    }
  }

  /** `generateTriplets(dataset)` */
  method GenerateTriplets(dataset: seq<Record>) returns (text: string)
    ensures text == Document(dataset)
  {
    var output := [PrefixBlock, ""];
    var i := 0;
    while i < |dataset|
      invariant 0 <= i <= |dataset|
      invariant output == [PrefixBlock, ""] + Blocks(dataset[..i])
    {
      var p := dataset[i];
      assert dataset[..i + 1][..i] == dataset[..i];
      var props := BuildProps(p);
      if |props| > 0 {
        output := output + [Statement(Subject(p), props)];
      }
      i := i + 1;
    }
    assert dataset[..i] == dataset;
    text := Join("\n", output);
  }
}
