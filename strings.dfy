/** String helpers standing in for the JavaScript built-ins the matcher uses:
    `trim`, `toUpperCase`, `toLowerCase`, `replace(/\s+/g, ' ')`, `split`,
    `join`, `includes`, `String(n)` and `toFixed(2)`. Case mapping is ASCII only. */
module Strings {

  /** `a || b` on strings: the first one unless it is empty. */
  function Or(a: string, b: string): (r: string)
    ensures r == a || r == b
    ensures r == "" <==> a == "" && b == ""
  {
    if a != "" then a else b
  }

  /** `s.substring(0, n)` */
  function Take(s: string, n: nat): (r: string)
    ensures |r| == if |s| < n then |s| else n
    ensures r <= s
  {
    if |s| < n then s else s[..n]
  }

  /** The white-space characters `trim` and `\s` remove (ASCII subset). */
  predicate IsSpace(c: char) {
    c == ' ' || c == '\t' || c == '\n' || c == '\r' || c == '\U{000B}' || c == '\U{000C}'
  }

  function UpperChar(c: char): char {
    if 'a' <= c <= 'z' then (c as int - 32) as char else c
  }

  function LowerChar(c: char): char {
    if 'A' <= c <= 'Z' then (c as int + 32) as char else c
  }

  /** `s.toUpperCase()` */
  function Upper(s: string): (r: string)
    ensures |r| == |s|
    ensures forall i :: 0 <= i < |s| ==> r[i] == UpperChar(s[i])
  {
    seq(|s|, i requires 0 <= i < |s| => UpperChar(s[i]))
  }

  /** `s.toLowerCase()` */
  function Lower(s: string): (r: string)
    ensures |r| == |s|
    ensures forall i :: 0 <= i < |s| ==> r[i] == LowerChar(s[i])
  {
    seq(|s|, i requires 0 <= i < |s| => LowerChar(s[i]))
  }

  lemma UpperIdempotent(s: string)
    ensures Upper(Upper(s)) == Upper(s)
  {
  }

  /** The end of the run of white space that starts at `i`. */
  function SpaceRunFrom(s: string, i: nat): (k: nat)
    requires i <= |s|
    ensures i <= k <= |s|
    ensures forall j :: i <= j < k ==> IsSpace(s[j])
    ensures k == |s| || !IsSpace(s[k])
    decreases |s| - i
  {
    if i < |s| && IsSpace(s[i]) then SpaceRunFrom(s, i + 1) else i
  }

  /** The start of the run of white space that ends at `n`. */
  function SpaceRunTo(s: string, n: nat): (k: nat)
    requires n <= |s|
    ensures k <= n
    ensures forall j :: k <= j < n ==> IsSpace(s[j])
    ensures k == 0 || !IsSpace(s[k - 1])
  {
    if n > 0 && IsSpace(s[n - 1]) then SpaceRunTo(s, n - 1) else n
  }

  /** Drops leading white space. */
  function TrimStart(s: string): (r: string)
    ensures |r| <= |s|
    ensures r == [] || !IsSpace(r[0])
    ensures r == s[|s| - |r|..]
    ensures forall i :: 0 <= i < |s| - |r| ==> IsSpace(s[i])
  {
    s[SpaceRunFrom(s, 0)..]
  }

  /** Drops trailing white space. */
  function TrimEnd(s: string): (r: string)
    ensures |r| <= |s|
    ensures r == [] || !IsSpace(r[|r| - 1])
    ensures r == s[..|r|]
    ensures forall i :: |r| <= i < |s| ==> IsSpace(s[i])
  {
    s[..SpaceRunTo(s, |s|)]
  }

  predicate Trimmed(s: string) {
    s == [] || (!IsSpace(s[0]) && !IsSpace(s[|s| - 1]))
  }

  /** `s.trim()`: the result has no white space at either end, and a string
      that already has none is returned unchanged. */
  function Trim(s: string): (r: string)
    ensures Trimmed(r)
    ensures Trimmed(s) ==> r == s
    ensures s == [] ==> r == []
  {
    var t := TrimStart(s);
    var r := TrimEnd(t);
    assert r != [] ==> r[0] == t[0];
    r
  }

  lemma TrimIdempotent(s: string)
    ensures Trim(Trim(s)) == Trim(s)
  {
  }

  /** `s.replace(/\s+/g, ' ')`: every maximal run of white space becomes one blank. */
  function Collapse(s: string): (r: string)
    ensures |r| <= |s|
    ensures s == [] <==> r == []
    ensures s != [] ==> (IsSpace(s[0]) <==> IsSpace(r[0])) && (IsSpace(s[0]) ==> r[0] == ' ')
    ensures s != [] && !IsSpace(s[0]) ==> r[0] == s[0]
    decreases |s|
  {
    if s == [] then []
    else if IsSpace(s[0]) then [' '] + Collapse(TrimStart(s))
    else [s[0]] + Collapse(s[1..])
  }

  lemma {:induction false} CollapseLast(s: string)
    requires s != []
    ensures IsSpace(s[|s| - 1]) <==> IsSpace(Collapse(s)[|Collapse(s)| - 1])
    decreases |s|
  {
    if IsSpace(s[0]) {
      var t := TrimStart(s);
      assert Collapse(s) == [' '] + Collapse(t);
      if t != [] {
        CollapseLast(t);
        assert s[|s| - 1] == t[|t| - 1];
        var c := Collapse(t);
        assert Collapse(s)[|Collapse(s)| - 1] == c[|c| - 1];
      }
    } else if |s| > 1 {
      assert Collapse(s) == [s[0]] + Collapse(s[1..]);
      CollapseLast(s[1..]);
    }
  }

  lemma CollapseTrimmed(s: string)
    requires Trimmed(s)
    ensures Trimmed(Collapse(s))
  {
    if s != [] { CollapseLast(s); }
  }

  /** A string in which every white-space character is a blank not followed by white space. */
  predicate Collapsed(s: string) {
    forall i :: 0 <= i < |s| && IsSpace(s[i]) ==> s[i] == ' ' && (i + 1 < |s| ==> !IsSpace(s[i + 1]))
  }

  lemma {:induction false} CollapseIsCollapsed(s: string)
    ensures Collapsed(Collapse(s))
    decreases |s|
  {
    if s == [] {
    } else if IsSpace(s[0]) {
      var t := TrimStart(s);
      CollapseIsCollapsed(t);
      assert Collapse(s) == [' '] + Collapse(t);
    } else {
      CollapseIsCollapsed(s[1..]);
      assert Collapse(s) == [s[0]] + Collapse(s[1..]);
    }
  }

  lemma {:induction false} CollapseOfCollapsed(s: string)
    requires Collapsed(s)
    ensures Collapse(s) == s
    decreases |s|
  {
    if s == [] {
    } else if IsSpace(s[0]) {
      assert TrimStart(s) == s[1..] by {
        if |s| > 1 { assert !IsSpace(s[1]); }
      }
      CollapseOfCollapsed(s[1..]);
    } else {
      CollapseOfCollapsed(s[1..]);
    }
  }

  lemma CollapseIdempotent(s: string)
    ensures Collapse(Collapse(s)) == Collapse(s)
  {
    CollapseIsCollapsed(s);
    CollapseOfCollapsed(Collapse(s));
  }

  lemma UpperTrimStart(s: string)
    ensures TrimStart(Upper(s)) == Upper(TrimStart(s))
  {
    var u := Upper(s);
    var k := |s| - |TrimStart(s)|;
    var m := |u| - |TrimStart(u)|;
    forall j | 0 <= j < |s| ensures IsSpace(u[j]) <==> IsSpace(s[j]) {
    }
    assert k == m;
    assert u[k..] == Upper(s[k..]);
  }

  lemma UpperCons(c: char, s: string)
    ensures Upper([c] + s) == [UpperChar(c)] + Upper(s)
  {
  }

  lemma {:induction false} UpperCollapse(s: string)
    ensures Collapse(Upper(s)) == Upper(Collapse(s))
    decreases |s|
  {
    if s == [] {
    } else if IsSpace(s[0]) {
      var u := Upper(s);
      assert u[0] == s[0];
      UpperTrimStart(s);
      UpperCollapse(TrimStart(s));
      calc {
        Collapse(u);
        [' '] + Collapse(TrimStart(u));
        [' '] + Collapse(Upper(TrimStart(s)));
        [' '] + Upper(Collapse(TrimStart(s)));
        { UpperCons(' ', Collapse(TrimStart(s))); }
        Upper([' '] + Collapse(TrimStart(s)));
      }
    } else {
      var u := Upper(s);
      assert !IsSpace(u[0]);
      assert u[1..] == Upper(s[1..]);
      UpperCollapse(s[1..]);
      calc {
        Collapse(u);
        [u[0]] + Collapse(u[1..]);
        [UpperChar(s[0])] + Upper(Collapse(s[1..]));
        { UpperCons(s[0], Collapse(s[1..])); }
        Upper([s[0]] + Collapse(s[1..]));
      }
    }
  }

  /** `parts.join(sep)` */
  function Join(sep: string, parts: seq<string>): string
  {
    if parts == [] then ""
    else if |parts| == 1 then parts[0]
    else parts[0] + sep + Join(sep, parts[1..])
  }

  /** `.filter(x => x.trim())` */
  function NonBlank(xs: seq<string>): (r: seq<string>)
    ensures forall k :: 0 <= k < |r| ==> Trim(r[k]) != "" && r[k] in xs
    ensures forall k :: 0 <= k < |xs| && Trim(xs[k]) != "" ==> xs[k] in r
  {
    if xs == [] then []
    else if Trim(xs[|xs| - 1]) != "" then NonBlank(xs[..|xs| - 1]) + [xs[|xs| - 1]]
    else NonBlank(xs[..|xs| - 1])
  }

  /** Appending one more part adds the separator and the part. */
  lemma {:induction false} JoinSnoc(sep: string, parts: seq<string>, x: string)
    requires parts != []
    ensures Join(sep, parts + [x]) == Join(sep, parts) + sep + x
  {
    var ps := parts + [x];
    assert ps[1..] == parts[1..] + [x];
    if |parts| > 1 {
      JoinSnoc(sep, parts[1..], x);
    }
  }

  /** `s.split(c)` for a one-character separator: the pieces between the
      separators, so that joining them back with `c` gives `s` again. */
  function Split(s: string, c: char): (r: seq<string>)
    ensures |r| >= 1
    ensures forall i :: 0 <= i < |r| ==> c !in r[i]
    ensures Join([c], r) == s
    decreases |s|
  {
    if |s| == 0 then [""]
    else
      var rest := Split(s[1..], c);
      if s[0] == c then
        assert Join([c], [""] + rest) == [c] + Join([c], rest);
        [""] + rest
      else
        var r := [[s[0]] + rest[0]] + rest[1..];
        assert Join([c], r) == [s[0]] + Join([c], rest) by {
          if |rest| > 1 {
            assert r[1..] == rest[1..];
          }
        }
        r
  }

  /** `sub` occurs in `s` at offset `k`. */
  predicate OccursAt(s: string, sub: string, k: int) {
    0 <= k <= |s| - |sub| && s[k..k + |sub|] == sub
  }

  /** `s.includes(sub)` */
  predicate Contains(s: string, sub: string) {
    exists k :: 0 <= k <= |s| - |sub| && OccursAt(s, sub, k)
  }

  lemma ContainsAt(s: string, sub: string, k: nat)
    requires k + |sub| <= |s| && s[k..k + |sub|] == sub
    ensures Contains(s, sub)
  {
    assert OccursAt(s, sub, k);
  }

  /** A string holding `t` holds everything `t` holds. */
  lemma ContainsTrans(s: string, t: string, u: string)
    requires Contains(s, t) && Contains(t, u)
    ensures Contains(s, u)
  {
    var k :| 0 <= k <= |s| - |t| && OccursAt(s, t, k);
    var m :| 0 <= m <= |t| - |u| && OccursAt(t, u, m);
    assert s[k..k + |t|] == t && t[m..m + |u|] == u;
    forall i | 0 <= i < |u| ensures s[k + m + i] == u[i] {
      assert t[m + i] == u[i];
      assert s[k + (m + i)] == t[m + i];
    }
    assert s[k + m..k + m + |u|] == u;
    ContainsAt(s, u, k + m);
  }

  /** A string lacking one of the characters of `sub` does not contain it. */
  lemma MissingChar(s: string, sub: string, c: char)
    requires c in sub && c !in s
    ensures !Contains(s, sub)
  {
    var i :| 0 <= i < |sub| && sub[i] == c;
    forall k | 0 <= k <= |s| - |sub| ensures !OccursAt(s, sub, k) {
      assert s[k..k + |sub|][i] == s[k + i] != c;
    }
  }

  function DigitChar(d: nat): char
    requires d < 10
  {
    "0123456789"[d]
  }

  /** `String(n)` for a non-negative integer. */
  function NatToString(n: nat): (r: string)
    ensures r != []
    ensures forall i :: 0 <= i < |r| ==> '0' <= r[i] <= '9'
    decreases n
  {
    if n < 10 then [DigitChar(n)] else NatToString(n / 10) + [DigitChar(n % 10)]
  }

  /** The value of a string of decimal digits. */
  function DigitsValue(s: string): nat
    requires forall i :: 0 <= i < |s| ==> '0' <= s[i] <= '9'
  {
    if s == [] then 0 else 10 * DigitsValue(s[..|s| - 1]) + (s[|s| - 1] as int - '0' as int)
  }

  lemma {:induction false} NatToStringRoundTrip(n: nat)
    ensures DigitsValue(NatToString(n)) == n
    decreases n
  {
    if n >= 10 {
      var r := NatToString(n);
      assert r[..|r| - 1] == NatToString(n / 10);
      NatToStringRoundTrip(n / 10);
    }
  }

  /** `String(i)` for any integer. */
  function IntToString(i: int): (r: string)
    ensures r != []
    ensures i < 0 <==> r[0] == '-'
  {
    if i < 0 then "-" + NatToString(-i) else NatToString(i)
  }

  /** `x.toFixed(2)` for a non-negative exact value: the nearest multiple of
      0.01, ties going to the larger one, written with two decimals. */
  function Fixed2(x: real): (r: string)
    requires x >= 0.0
    ensures |r| >= 4 && r[|r| - 3] == '.'
  {
    var n: int := (x * 100.0 + 0.5).Floor;
    assert n >= 0;
    var cents: nat := n % 100;
    NatToString(n / 100) + "." + [DigitChar(cents / 10), DigitChar(cents % 10)]
  }

  /** `f` applied to each element, in order (`xs.map(f)`). */
  function MapEach<A, B>(xs: seq<A>, f: A -> B): (r: seq<B>)
    ensures |r| == |xs|
  {
    if xs == [] then [] else MapEach(xs[..|xs| - 1], f) + [f(xs[|xs| - 1])]
  }

  lemma {:induction false} MapEachIndex<A, B>(xs: seq<A>, f: A -> B)
    ensures forall i :: 0 <= i < |xs| ==> MapEach(xs, f)[i] == f(xs[i])
  {
    if xs != [] {
      var init := xs[..|xs| - 1];
      MapEachIndex(init, f);
      assert forall i :: 0 <= i < |init| ==> init[i] == xs[i];
    }
  }
}
