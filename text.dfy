/** The parts of Python's `str` that the pipeline relies on: `lower`, `strip`,
    `in`, `split(sep)`, `sep.join`, `title`, `str(n)` for a natural number and
    slicing. Case mapping is ASCII only; whitespace is Python's `str.isspace`
    set, which is also what `\s` matches in the regular expressions. */
module Text {

  /** Python's `str.isspace` (and the `\s` class of `re` on text). */
  predicate IsSpace(c: char) {
    ('\U{0009}' <= c <= '\U{000D}') || ('\U{001C}' <= c <= '\U{0020}')
    || c == '\U{0085}' || c == '\U{00A0}' || c == '\U{1680}'
    || ('\U{2000}' <= c <= '\U{200A}') || c == '\U{2028}' || c == '\U{2029}'
    || c == '\U{202F}' || c == '\U{205F}' || c == '\U{3000}'
  }

  predicate IsUpper(c: char) { 'A' <= c <= 'Z' }
  predicate IsLowerLetter(c: char) { 'a' <= c <= 'z' }
  predicate IsLetter(c: char) { IsUpper(c) || IsLowerLetter(c) }

  function LowerChar(c: char): char {
    if IsUpper(c) then (c as int + 32) as char else c
  }

  function UpperChar(c: char): char {
    if IsLowerLetter(c) then (c as int - 32) as char else c
  }

  /** `s.lower()`. */
  function Lower(s: string): (r: string)
    ensures |r| == |s|
    ensures forall i :: 0 <= i < |s| ==> r[i] == LowerChar(s[i])
  {
    seq(|s|, i requires 0 <= i < |s| => LowerChar(s[i]))
  }

  /** `[x.lower() for x in xs]`. */
  function LowerAll(xs: seq<string>): (r: seq<string>)
    ensures |r| == |xs|
    ensures forall i :: 0 <= i < |xs| ==> r[i] == Lower(xs[i])
  {
    seq(|xs|, i requires 0 <= i < |xs| => Lower(xs[i]))
  }

  lemma LowerIdempotent(s: string)
    ensures Lower(Lower(s)) == Lower(s)
  {
  }

  function StripLeft(s: string): (r: string)
    ensures |r| <= |s| && r == s[|s| - |r|..]
    ensures r == [] || !IsSpace(r[0])
  {
    if |s| > 0 && IsSpace(s[0]) then StripLeft(s[1..]) else s
  }

  function StripRight(s: string): (r: string)
    ensures |r| <= |s| && r == s[..|r|]
    ensures r == [] || !IsSpace(r[|r| - 1])
  {
    if |s| > 0 && IsSpace(s[|s| - 1]) then StripRight(s[..|s| - 1]) else s
  }

  /** `s.strip()`: the result is a slice of `s` that neither starts nor ends
      with whitespace. */
  function Strip(s: string): (r: string)
    ensures |r| <= |s|
    ensures r == [] || (!IsSpace(r[0]) && !IsSpace(r[|r| - 1]))
  {
    var l := StripLeft(s);
    var r := StripRight(l);
    assert r == s[|s| - |l|..][..|r|] == s[|s| - |l|..|s| - |l| + |r|];
    if r != [] then
      assert r[0] == l[0];
      r
    else r
  }

  lemma {:induction false} StripLeftAll(ws: string, s: string)
    requires forall i :: 0 <= i < |ws| ==> IsSpace(ws[i])
    requires s == [] || !IsSpace(s[0])
    ensures StripLeft(ws + s) == s
  {
    if ws != [] {
      assert (ws + s)[1..] == ws[1..] + s;
      StripLeftAll(ws[1..], s);
    } else {
      assert ws + s == s;
    }
  }

  lemma {:induction false} StripRightAll(s: string, ws: string)
    requires forall i :: 0 <= i < |ws| ==> IsSpace(ws[i])
    requires s == [] || !IsSpace(s[|s| - 1])
    ensures StripRight(s + ws) == s
  {
    if ws != [] {
      assert (s + ws)[..|s + ws| - 1] == s + ws[..|ws| - 1];
      StripRightAll(s, ws[..|ws| - 1]);
    } else {
      assert s + ws == s;
    }
  }

  /** Stripping removes exactly the whitespace padding around a text that
      neither starts nor ends with whitespace. */
  lemma StripPadded(ws1: string, core: string, ws2: string)
    requires forall i :: 0 <= i < |ws1| ==> IsSpace(ws1[i])
    requires forall i :: 0 <= i < |ws2| ==> IsSpace(ws2[i])
    requires core != [] && !IsSpace(core[0]) && !IsSpace(core[|core| - 1])
    ensures Strip(ws1 + core + ws2) == core
  {
    assert ws1 + core + ws2 == ws1 + (core + ws2);
    assert (core + ws2)[0] == core[0];
    StripLeftAll(ws1, core + ws2);
    StripRightAll(core, ws2);
  }

  predicate StartsWith(s: string, prefix: string) {
    |prefix| <= |s| && s[..|prefix|] == prefix
  }

  /** Python's `sub in s`. */
  predicate Contains(s: string, sub: string)
    decreases |s|
  {
    StartsWith(s, sub) || (|s| > 0 && Contains(s[1..], sub))
  }

  lemma {:induction false} ContainsAt(s: string, sub: string, i: nat)
    requires i + |sub| <= |s| && s[i..i + |sub|] == sub
    ensures Contains(s, sub)
  {
    if i > 0 {
      assert s[1..][i - 1..i - 1 + |sub|] == s[i..i + |sub|];
      ContainsAt(s[1..], sub, i - 1);
    } else {
      assert s[..|sub|] == sub;
    }
  }

  /** Every piece of a concatenation occurs in it. */
  lemma ContainsMiddle(a: string, b: string, c: string)
    ensures Contains(a + b + c, b)
  {
    assert (a + b + c)[|a|..|a| + |b|] == b;
    ContainsAt(a + b + c, b, |a|);
  }

  lemma {:induction false} ContainsTail(a: string, b: string, sub: string)
    requires Contains(b, sub)
    ensures Contains(a + b, sub)
    decreases |a|
  {
    if a != [] {
      assert (a + b)[1..] == a[1..] + b;
      ContainsTail(a[1..], b, sub);
    } else {
      assert a + b == b;
    }
  }

  lemma {:induction false} ContainsWitness(s: string, sub: string) returns (i: nat)
    requires Contains(s, sub)
    ensures i + |sub| <= |s| && s[i..i + |sub|] == sub
    decreases |s|
  {
    if StartsWith(s, sub) {
      i := 0;
    } else {
      var j := ContainsWitness(s[1..], sub);
      assert s[j + 1..j + 1 + |sub|] == s[1..][j..j + |sub|];
      i := j + 1;
    }
  }

  /** An occurrence in a prefix is an occurrence. */
  lemma ContainsHead(a: string, b: string, sub: string)
    requires Contains(a, sub)
    ensures Contains(a + b, sub)
  {
    var i := ContainsWitness(a, sub);
    assert (a + b)[i..i + |sub|] == a[i..i + |sub|];
    ContainsAt(a + b, sub, i);
  }

  /** An occurrence in a middle piece is an occurrence in the whole. */
  lemma ContainsPart(a: string, b: string, c: string, sub: string)
    requires Contains(b, sub)
    ensures Contains(a + b + c, sub)
  {
    ContainsTail(a, b, sub);
    ContainsHead(a + b, c, sub);
  }

  /** An occurrence inside an occurrence is an occurrence. */
  lemma ContainsTrans(s: string, mid: string, sub: string)
    requires Contains(s, mid) && Contains(mid, sub)
    ensures Contains(s, sub)
  {
    var i := ContainsWitness(s, mid);
    var j := ContainsWitness(mid, sub);
    forall t | 0 <= t < |sub| ensures s[i + j + t] == sub[t] {
      assert sub[t] == mid[j..j + |sub|][t] == mid[j + t];
      assert mid[j + t] == s[i..i + |mid|][j + t] == s[i + j + t];
    }
    assert s[i + j..i + j + |sub|] == sub;
    ContainsAt(s, sub, i + j);
  }

  /** `"".join(parts)`. */
  function Concat(parts: seq<string>): string {
    if parts == [] then "" else parts[0] + Concat(parts[1..])
  }

  /** Regrouping a four-part concatenation. */
  lemma AppendRegroup4(a: string, b: string, c: string, d: string)
    ensures a + b + c + d == a + (b + c + d)
  {
  }

  /** Regrouping a five-part concatenation. */
  lemma AppendRegroup(a: string, b: string, c: string, d: string, e: string)
    ensures a + b + c + d + e == a + (b + c + d + e)
  {
  }

  /** Concatenating one more part appends it. */
  lemma {:induction false} ConcatSnoc(parts: seq<string>, x: string)
    ensures Concat(parts + [x]) == Concat(parts) + x
  {
    if parts == [] {
      assert [] + [x] == [x];
      assert Concat([x]) == x + Concat([]);
    } else {
      assert (parts + [x])[1..] == parts[1..] + [x];
      ConcatSnoc(parts[1..], x);
    }
  }

  /** Concatenating one more part of a sequence of parts. */
  lemma ConcatPrefixSnoc(parts: seq<string>, i: nat)
    requires i < |parts|
    ensures Concat(parts[..i + 1]) == Concat(parts[..i]) + parts[i]
  {
    ConcatSnoc(parts[..i], parts[i]);
    assert parts[..i] + [parts[i]] == parts[..i + 1];
  }

  /** A five-part concatenation, part by part. */
  lemma ConcatFive(parts: seq<string>)
    requires |parts| == 5
    ensures Concat(parts) == parts[0] + parts[1] + parts[2] + parts[3] + parts[4]
  {
    assert parts[..0] == [];
    ConcatPrefixSnoc(parts, 0);
    ConcatPrefixSnoc(parts, 1);
    ConcatPrefixSnoc(parts, 2);
    ConcatPrefixSnoc(parts, 3);
    ConcatPrefixSnoc(parts, 4);
    assert parts[..5] == parts;
  }

  /** A six-part concatenation, part by part. */
  lemma ConcatSix(parts: seq<string>)
    requires |parts| == 6
    ensures Concat(parts) == parts[0] + parts[1] + parts[2] + parts[3] + parts[4] + parts[5]
  {
    var init := parts[..5];
    ConcatFive(init);
    ConcatPrefixSnoc(parts, 5);
    assert parts[..6] == parts;
  }

  /** A concatenation is empty exactly when every part is. */
  lemma {:induction false} ConcatEmpty(parts: seq<string>)
    ensures Concat(parts) == "" <==> forall i :: 0 <= i < |parts| ==> parts[i] == ""
  {
    if parts != [] {
      ConcatEmpty(parts[1..]);
      assert forall i :: 0 < i < |parts| ==> parts[1..][i - 1] == parts[i];
    }
  }

  /** Every part occurs in the concatenation. */
  lemma {:induction false} ConcatContains(parts: seq<string>, i: nat)
    requires i < |parts|
    ensures Contains(Concat(parts), parts[i])
  {
    if i == 0 {
      ContainsMiddle([], parts[0], Concat(parts[1..]));
      assert [] + parts[0] + Concat(parts[1..]) == Concat(parts);
    } else {
      ConcatContains(parts[1..], i - 1);
      ContainsTail(parts[0], Concat(parts[1..]), parts[i]);
    }
  }

  /** The concatenation starts with the first character of a non-empty first
      part and ends with the last character of a non-empty last part. */
  lemma {:induction false} ConcatEnds(parts: seq<string>)
    requires |parts| > 0 && parts[0] != [] && parts[|parts| - 1] != []
    ensures var c := Concat(parts);
            var last := parts[|parts| - 1];
            |c| > 0 && c[0] == parts[0][0] && c[|c| - 1] == last[|last| - 1]
    decreases |parts|
  {
    if |parts| > 1 {
      if parts[1..][0] != [] {
        ConcatEnds(parts[1..]);
      } else {
        ConcatEnds([parts[0]] + parts[2..]);
        assert Concat(parts[1..]) == Concat(parts[2..]);
        assert ([parts[0]] + parts[2..])[1..] == parts[2..];
      }
    }
  }

  /** Every part occurs in the joined text. */
  lemma {:induction false} JoinContainsPart(parts: seq<string>, sep: string, i: nat)
    requires i < |parts|
    ensures Contains(Join(parts, sep), parts[i])
  {
    if |parts| == 1 {
      ContainsMiddle([], parts[0], []);
      assert [] + parts[0] + [] == parts[0];
    } else if i == 0 {
      ContainsMiddle([], parts[0], sep + Join(parts[1..], sep));
      assert [] + parts[0] + (sep + Join(parts[1..], sep)) == Join(parts, sep);
    } else {
      JoinContainsPart(parts[1..], sep, i - 1);
      ContainsTail(parts[0] + sep, Join(parts[1..], sep), parts[i]);
    }
  }

  function IndexOf(s: string, d: char): (i: nat)
    requires d in s
    ensures i < |s| && s[i] == d && d !in s[..i]
  {
    if s[0] == d then 0
    else
      assert d in s[1..];
      var j := IndexOf(s[1..], d);
      assert s[..j + 1] == [s[0]] + s[1..][..j];
      j + 1
  }

  /** `s.split(d)` for a one-character separator: there is always at least one
      part, and no part contains the separator. */
  function SplitOn(s: string, d: char): (parts: seq<string>)
    ensures |parts| >= 1
    ensures forall k :: 0 <= k < |parts| ==> d !in parts[k]
    decreases |s|
  {
    if d !in s then [s]
    else
      var i := IndexOf(s, d);
      [s[..i]] + SplitOn(s[i + 1..], d)
  }

  /** `sep.join(parts)`. */
  function Join(parts: seq<string>, sep: string): string
    decreases |parts|
  {
    if |parts| == 0 then ""
    else if |parts| == 1 then parts[0]
    else parts[0] + sep + Join(parts[1..], sep)
  }

  /** Splitting on a separator that no part contains undoes joining with it. */
  lemma {:induction false} SplitJoin(parts: seq<string>, d: char)
    requires |parts| >= 1
    requires forall k :: 0 <= k < |parts| ==> d !in parts[k]
    ensures SplitOn(Join(parts, [d]), d) == parts
  {
    if |parts| > 1 {
      var rest := Join(parts[1..], [d]);
      var s := parts[0] + [d] + rest;
      assert s[|parts[0]|] == d;
      var i := IndexOf(s, d);
      assert forall k :: 0 <= k < i ==> s[..i][k] == s[k] != d;
      assert forall k :: 0 <= k < |parts[0]| ==> s[k] == parts[0][k] != d;
      assert i == |parts[0]|;
      assert s[..i] == parts[0];
      assert s[i + 1..] == rest;
      SplitJoin(parts[1..], d);
    }
  }

  function DigitChar(d: nat): char
    requires d < 10
  {
    "0123456789"[d]
  }

  /** `str(n)` for a natural number. */
  function NatToString(n: nat): (r: string)
    ensures |r| >= 1
    ensures forall i :: 0 <= i < |r| ==> '0' <= r[i] <= '9'
  {
    if n < 10 then [DigitChar(n)] else NatToString(n / 10) + [DigitChar(n % 10)]
  }

  /** The number a string of decimal digits denotes. */
  function DigitsValue(s: string): nat
    requires forall i :: 0 <= i < |s| ==> '0' <= s[i] <= '9'
  {
    if s == [] then 0
    else DigitsValue(s[..|s| - 1]) * 10 + (s[|s| - 1] as int - '0' as int)
  }

  /** The decimal rendering of a count denotes that count. */
  lemma {:induction false} NatToStringValue(n: nat)
    ensures DigitsValue(NatToString(n)) == n
  {
    if n >= 10 {
      var s := NatToString(n);
      assert s[..|s| - 1] == NatToString(n / 10);
      NatToStringValue(n / 10);
    }
  }

  function TitleFrom(s: string, afterLetter: bool): (r: string)
    ensures |r| == |s|
  {
    if s == [] then []
    else
      var c := s[0];
      var c' := if !IsLetter(c) then c else if afterLetter then LowerChar(c) else UpperChar(c);
      [c'] + TitleFrom(s[1..], IsLetter(c))
  }

  /** `s.title()`: each letter is upper-cased when it starts a word (no letter
      before it) and lower-cased otherwise. */
  function Title(s: string): (r: string)
    ensures |r| == |s|
  {
    TitleFrom(s, false)
  }

  /** `s[:n]`. */
  function Take<T>(s: seq<T>, n: nat): (r: seq<T>)
    ensures |r| == if |s| <= n then |s| else n
    ensures r == s[..|r|]
  {
    if |s| <= n then s else s[..n]
  }

  /** `[f(x) for x in xs]`. */
  function Map<A, B>(f: A -> B, xs: seq<A>): (r: seq<B>)
    ensures |r| == |xs|
    ensures forall i :: 0 <= i < |xs| ==> r[i] == f(xs[i])
  {
    seq(|xs|, i requires 0 <= i < |xs| => f(xs[i]))
  }

  /** Mapping a concatenation maps the parts. */
  lemma MapAppend<A, B>(f: A -> B, a: seq<A>, b: seq<A>)
    ensures Map(f, a + b) == Map(f, a) + Map(f, b)
  {
    forall i | 0 <= i < |a + b| ensures Map(f, a + b)[i] == (Map(f, a) + Map(f, b))[i] {
      if i < |a| {
        assert (a + b)[i] == a[i];
      } else {
        assert (a + b)[i] == b[i - |a|];
      }
    }
  }

  /** The lines `- item` for the items, in order. */
  function BulletLines(items: seq<string>): string {
    if items == [] then ""
    else BulletLines(items[..|items| - 1]) + "- " + items[|items| - 1] + "\n"
  }

  /** Every item has its own line. */
  lemma {:induction false} BulletLinesMention(items: seq<string>, i: nat)
    requires i < |items|
    ensures Contains(BulletLines(items), "- " + items[i] + "\n")
  {
    var init, line := items[..|items| - 1], "- " + items[|items| - 1] + "\n";
    assert BulletLines(items) == BulletLines(init) + line;
    if i < |init| {
      assert init[i] == items[i];
      BulletLinesMention(init, i);
      ContainsHead(BulletLines(init), line, "- " + items[i] + "\n");
    } else {
      ContainsAt(line, line, 0);
      ContainsTail(BulletLines(init), line, line);
    }
  }

  /** The bullet lines end with a newline, one line per item. */
  lemma BulletLinesShape(items: seq<string>)
    ensures items == [] <==> BulletLines(items) == ""
    ensures items != [] ==> BulletLines(items)[|BulletLines(items)| - 1] == '\n'
  {
  }

  /** Appends the bullet lines for the items to `text`, one at a time. */
  method AppendBullets(text: string, items: seq<string>) returns (r: string)
    ensures r == text + BulletLines(items)
  {
    r := text;
    var i := 0;
    while i < |items|
      invariant 0 <= i <= |items|
      invariant r == text + BulletLines(items[..i])
    {
      assert items[..i + 1][..i] == items[..i];
      r := r + "- " + items[i] + "\n";
      i := i + 1;
    }
    assert items[..i] == items;
  }

  /** Appends the parts to `text`, one at a time. */
  method AppendAll(text: string, parts: seq<string>) returns (r: string)
    ensures r == text + Concat(parts)
  {
    r := text;
    var i := 0;
    while i < |parts|
      invariant 0 <= i <= |parts|
      invariant r == text + Concat(parts[..i])
    {
      ConcatPrefixSnoc(parts, i);
      r := r + parts[i];
      i := i + 1;
    }
    assert parts[..i] == parts;
  }

  /** `s` is found at `j` when `j` holds `d` and nothing before it does. */
  lemma {:induction false} IndexOfUnique(s: string, d: char, j: nat)
    requires j < |s| && s[j] == d && d !in s[..j]
    ensures IndexOf(s, d) == j
  {
    if j > 0 {
      assert s[0] == s[..j][0];
      assert s[1..][..j - 1] == s[1..j];
      assert d !in s[1..j] by {
        forall t | 0 <= t < j - 1 ensures s[1..j][t] != d {
          assert s[1..j][t] == s[..j][t + 1];
        }
      }
      IndexOfUnique(s[1..], d, j - 1);
    }
  }

  /** Splitting at the first separator. */
  lemma SplitOnStep(s: string, d: char, j: nat)
    requires j < |s| && s[j] == d && d !in s[..j]
    ensures SplitOn(s, d) == [s[..j]] + SplitOn(s[j + 1..], d)
  {
    assert d in s;
    IndexOfUnique(s, d, j);
  }

  /** A string in a list is in every list that extends it. */
  lemma InAppend(a: seq<string>, b: seq<string>, x: string)
    requires x in a
    ensures x in a + b
  {
    var i :| 0 <= i < |a| && a[i] == x;
    assert (a + b)[i] == x;
  }

  lemma InAppendRight(a: seq<string>, b: seq<string>, x: string)
    requires x in b
    ensures x in a + b
  {
    var i :| 0 <= i < |b| && b[i] == x;
    assert (a + b)[|a| + i] == x;
  }
}
