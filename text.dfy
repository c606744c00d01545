/**
 * The string operations the backend relies on, over ASCII: Python's
 * `str.isspace`, `str.strip`, `str.lower`, `str.count`, `str.split` and
 * `str(int)`. Characters outside ASCII are neither whitespace nor cased here.
 */
module Text {

  /** Python's `str.isspace` restricted to ASCII: space, \t \n \v \f \r and the
      four separators \x1c..\x1f. */
  predicate IsSpace(c: char) {
    c == ' ' || ('\t' <= c <= '\r') || ('\U{1C}' <= c <= '\U{1F}')
  }

  /** The string contains a character that is not whitespace. */
  predicate HasVisible(s: string) {
    exists i :: 0 <= i < |s| && !IsSpace(s[i])
  }

  function TrimLeft(s: string): (r: string)
    ensures |r| <= |s| && r == s[|s| - |r|..]
    ensures r == [] || !IsSpace(r[0])
    ensures forall i :: 0 <= i < |s| - |r| ==> IsSpace(s[i])
  {
    if s != [] && IsSpace(s[0]) then TrimLeft(s[1..]) else s
  }

  function TrimRight(s: string): (r: string)
    ensures |r| <= |s| && r == s[..|r|]
    ensures r == [] || !IsSpace(r[|r| - 1])
    ensures forall i :: |r| <= i < |s| ==> IsSpace(s[i])
  {
    if s != [] && IsSpace(s[|s| - 1]) then TrimRight(s[..|s| - 1]) else s
  }

  /** Python's `str.strip()` with no argument. */
  function Strip(s: string): string {
    TrimRight(TrimLeft(s))
  }

  /** `not s.strip()`: the string is empty once whitespace is stripped. */
  predicate IsBlank(s: string) {
    Strip(s) == []
  }

  /** A stripped string is a contiguous piece of the original with only
      whitespace cut away on either side, and it has no padding left. */
  lemma StripShape(s: string)
    ensures exists i :: OccursAt(Strip(s), s, i)
    ensures Strip(s) == [] || !IsSpace(Strip(s)[0])
    ensures Strip(s) == [] || !IsSpace(Strip(s)[|Strip(s)| - 1])
  {
    var l := TrimLeft(s);
    var r := TrimRight(l);
    var i := |s| - |l|;
    assert l == s[i..];
    assert s[i..i + |r|] == l[..|r|] == r;
    assert Strip(s) == r && OccursAt(r, s, i);
    if r != [] {
      assert r[0] == l[0];
    }
  }

  /** Stripping removes something only when all of the string is blank or the
      string has padding: blank exactly when every character is whitespace. */
  lemma BlankIffNoVisible(s: string)
    ensures IsBlank(s) <==> !HasVisible(s)
  {
    var l := TrimLeft(s);
    if HasVisible(s) {
      var k :| 0 <= k < |s| && !IsSpace(s[k]);
      assert l != [];
    }
  }

  /** `bool(s.strip())`: the string has a visible character. */
  function HasContent(s: string): (b: bool)
    ensures b <==> HasVisible(s)
  {
    BlankIffNoVisible(s);
    !IsBlank(s)
  }

  /** Stripping twice is stripping once. */
  lemma StripIdempotent(s: string)
    ensures Strip(Strip(s)) == Strip(s)
  {
    var t := Strip(s);
    StripShape(s);
    assert TrimLeft(t) == t;
    assert TrimRight(t) == t;
  }

  /** Python's `str.lower()` on one character. */
  function LowerChar(c: char): char {
    if 'A' <= c <= 'Z' then (c as int + 32) as char else c
  }

  /** Python's `str.lower()`: every character lowered, in place. */
  function Lower(s: string): (r: string)
    ensures |r| == |s|
    ensures forall i :: 0 <= i < |s| ==> r[i] == LowerChar(s[i])
  {
    if s == [] then [] else [LowerChar(s[0])] + Lower(s[1..])
  }

  /** No upper-case ASCII letter occurs. */
  predicate IsLower(s: string) {
    forall i :: 0 <= i < |s| ==> !('A' <= s[i] <= 'Z')
  }

  lemma LowerIsLower(s: string)
    ensures IsLower(Lower(s))
    ensures IsLower(s) ==> Lower(s) == s
  {
  }

  lemma LowerKeepsSpace(c: char)
    ensures IsSpace(LowerChar(c)) == IsSpace(c)
  {
  }

  lemma {:induction false} TrimLeftLower(s: string)
    ensures TrimLeft(Lower(s)) == Lower(TrimLeft(s))
    decreases |s|
  {
    if s != [] {
      LowerKeepsSpace(s[0]);
      assert Lower(s)[1..] == Lower(s[1..]);
      if IsSpace(s[0]) {
        TrimLeftLower(s[1..]);
      }
    }
  }

  lemma {:induction false} TrimRightLower(s: string)
    ensures TrimRight(Lower(s)) == Lower(TrimRight(s))
    decreases |s|
  {
    if s != [] {
      var n := |s| - 1;
      LowerKeepsSpace(s[n]);
      assert Lower(s)[..n] == Lower(s[..n]);
      if IsSpace(s[n]) {
        TrimRightLower(s[..n]);
      }
    }
  }

  /** Lowering and stripping commute, so `s.strip().lower()` equals
      `s.lower().strip()`. */
  lemma StripLowerCommute(s: string)
    ensures Strip(Lower(s)) == Lower(Strip(s))
  {
    TrimLeftLower(s);
    TrimRightLower(TrimLeft(s));
  }

  /** Python's `s.count(c)` for a single character. */
  function Count(s: string, c: char): (n: nat)
    ensures n <= |s|
  {
    if s == [] then 0 else (if s[0] == c then 1 else 0) + Count(s[1..], c)
  }

  /** Python's `s.split(sep)` for a single-character separator: the pieces
      between separators, an empty piece where two separators touch. */
  function Split(s: string, sep: char): (parts: seq<string>)
    ensures |parts| >= 1
    ensures forall i :: 0 <= i < |parts| ==> sep !in parts[i]
  {
    if s == [] then [[]]
    else
      var rest := Split(s[1..], sep);
      if s[0] == sep then [[]] + rest else [[s[0]] + rest[0]] + rest[1..]
  }

  /** Joining the pieces back with the separator gives the string again. */
  function Join(parts: seq<string>, sep: char): string
    requires |parts| >= 1
  {
    if |parts| == 1 then parts[0] else parts[0] + [sep] + Join(parts[1..], sep)
  }

  lemma {:induction false} SplitCount(s: string, sep: char)
    ensures |Split(s, sep)| == Count(s, sep) + 1
  {
    if s != [] {
      SplitCount(s[1..], sep);
    }
  }

  lemma {:induction false} JoinSplit(s: string, sep: char)
    ensures Join(Split(s, sep), sep) == s
  {
    if s != [] {
      var rest := Split(s[1..], sep);
      JoinSplit(s[1..], sep);
      if s[0] == sep {
        assert Split(s, sep)[1..] == rest;
      } else {
        var parts := Split(s, sep);
        assert parts[0] == [s[0]] + rest[0];
        if |rest| == 1 {
          assert |parts| == 1;
        } else {
          assert parts[1..] == rest[1..];
          assert Join(rest, sep) == rest[0] + [sep] + Join(rest[1..], sep);
        }
      }
    }
  }

  /** The `line_count` property of the value objects:
      `s.count("\n") + 1 if s else 0`. */
  function LineCount(s: string): nat {
    if s == [] then 0 else Count(s, '\n') + 1
  }

  /** A non-empty text has exactly as many lines as `split("\n")` gives
      pieces, and so at least one. */
  lemma LineCountIsLines(s: string)
    requires s != []
    ensures LineCount(s) == |Split(s, '\n')| >= 1
  {
    SplitCount(s, '\n');
  }

  predicate IsDigit(c: char) {
    '0' <= c <= '9'
  }

  function DigitChar(d: nat): (c: char)
    requires d < 10
    ensures IsDigit(c) && c as int - '0' as int == d
  {
    ('0' as int + d) as char
  }

  /** Python's `str(n)` for a non-negative integer: decimal, no leading zero. */
  function NatToString(n: nat): (r: string)
    ensures |r| >= 1
    ensures forall i :: 0 <= i < |r| ==> IsDigit(r[i])
  {
    if n < 10 then [DigitChar(n)] else NatToString(n / 10) + [DigitChar(n % 10)]
  }

  /** Python's `str(i)` for any integer. */
  function IntToString(i: int): (r: string)
    ensures |r| >= 1 && ' ' !in r
  {
    if i < 0 then "-" + NatToString(-i) else NatToString(i)
  }

  /** The printed form starts with '-' exactly for negative numbers. */
  lemma LeadingSign(i: int)
    ensures (IntToString(i)[0] == '-') <==> i < 0
  {
    if i >= 0 {
      assert IsDigit(NatToString(i)[0]);
    }
  }

  /** The value of a string of decimal digits. */
  function DigitsValue(s: string): nat
    requires forall i :: 0 <= i < |s| ==> IsDigit(s[i])
  {
    if s == [] then 0 else DigitsValue(s[..|s| - 1]) * 10 + DigitValue(s[|s| - 1])
  }

  function DigitValue(c: char): nat
    requires IsDigit(c)
  {
    c as int - '0' as int
  }

  lemma {:induction false} NatToStringValue(n: nat)
    ensures DigitsValue(NatToString(n)) == n
  {
    if n >= 10 {
      var r := NatToString(n);
      NatToStringValue(n / 10);
      assert r[..|r| - 1] == NatToString(n / 10);
    }
  }

  /** Different naturals print differently. */
  lemma NatToStringInjective(m: nat, n: nat)
    requires NatToString(m) == NatToString(n)
    ensures m == n
  {
    NatToStringValue(m);
    NatToStringValue(n);
  }

  /** Different integers print differently. */
  lemma IntToStringInjective(a: int, b: int)
    requires IntToString(a) == IntToString(b)
    ensures a == b
  {
    LeadingSign(a);
    LeadingSign(b);
    if a < 0 {
      var m, n := NatToString(-a), NatToString(-b);
      assert IntToString(a) == "-" + m && IntToString(b) == "-" + n;
      Concat("-", m);
      Concat("-", n);
      NatToStringInjective(-a, -b);
    } else {
      NatToStringInjective(a, b);
    }
  }

  /** `p` is a prefix of `s`. */
  predicate StartsWith(s: string, p: string) {
    |p| <= |s| && s[..|p|] == p
  }

  /** `sub` occurs contiguously in `s` (Python's `sub in s`). */
  predicate IsInfix(sub: string, s: string) {
    exists i :: 0 <= i <= |s| && OccursAt(sub, s, i)
  }

  /** `suf` is a suffix of `s`. */
  predicate EndsWith(s: string, suf: string) {
    |suf| <= |s| && s[|s| - |suf|..] == suf
  }

  /** How concatenation places its operands. */
  lemma Concat(a: string, b: string)
    ensures StartsWith(a + b, a)
    ensures (a + b)[|a|..] == b
    ensures OccursAt(a, a + b, 0)
    ensures EndsWith(a + b, b)
  {
    assert (a + b)[..|a|] == a;
    assert (a + b)[|a|..] == b;
  }

  /** A prefix made of two pieces survives nesting on the right. */
  lemma StartsWithNested(a: string, b: string, c: string, d: string)
    ensures StartsWith(a + ((b + c) + d), a + b)
  {
    assert (a + ((b + c) + d))[..|a + b|] == a + b;
  }

  /** The first two pieces of a right-nested concatenation are a prefix of it. */
  lemma TwoPiecePrefix(a: string, b: string, d: string)
    ensures StartsWith(a + (b + d), a + b)
  {
    assert (a + (b + d))[..|a + b|] == a + b;
  }

  /** The head of a nested concatenation is a prefix of it. */
  lemma HeadOfNested(b: string, c: string, d: string)
    ensures StartsWith((b + c) + d, b)
  {
    assert ((b + c) + d)[..|b|] == b;
  }

  /** Three pieces grouped on the left are a prefix of the whole. */
  lemma PrefixOfNested(a: string, b: string, c: string, d: string)
    ensures StartsWith((a + (b + c)) + d, a + b + c)
  {
    assert ((a + (b + c)) + d)[..|a + b + c|] == a + b + c;
  }

  /** Dropping three leading pieces leaves the fourth. */
  lemma SkipThree(a: string, b: string, c: string, d: string)
    ensures (a + (b + (c + d)))[|a| + |b| + |c|..] == d
  {
    assert (a + (b + (c + d)))[|a| + |b| + |c|..] == d;
  }

  /** A prefix of a prefix is a prefix. */
  lemma ShorterPrefix(s: string, p: string, q: string)
    requires StartsWith(s, p) && StartsWith(p, q)
    ensures StartsWith(s, q)
  {
    assert s[..|q|] == s[..|p|][..|q|];
  }

  /** A string that starts with `a` does not start with a `p` that disagrees
      with `a` at some position both have. */
  lemma Diverge(s: string, a: string, p: string, i: int)
    requires StartsWith(s, a) && 0 <= i < |a| && i < |p| && a[i] != p[i]
    ensures !StartsWith(s, p)
  {
    assert s[i] == s[..|a|][i];
  }

  /** An optional piece `h` — `o + x` when present, nothing otherwise — in
      front of a tail that opens with a `u` disagreeing with `o` at position
      `k`: the text starts with `o` exactly when the piece is present. */
  lemma OptionalHead(s: string, h: string, t: string, u: string, o: string, x: string, present: bool, k: int)
    requires s == h + t
    requires present ==> h == o + x
    requires !present ==> h == []
    requires StartsWith(t, u) && 0 <= k < |o| && k < |u| && u[k] != o[k]
    ensures StartsWith(s, o) <==> present
    ensures present ==> StartsWith(s, o + x)
  {
    if present {
      assert s[..|o|] == o;
      assert s[..|o + x|] == o + x;
    } else {
      assert s[k] == t[..|u|][k];
    }
  }

  /** `OptionalHead` one piece into the text. */
  lemma OptionalAfterOne(a: string, h: string, t: string, u: string, o: string, x: string, present: bool, k: int)
    requires present ==> h == o + x
    requires !present ==> h == []
    requires StartsWith(t, u) && 0 <= k < |o| && k < |u| && u[k] != o[k]
    ensures StartsWith((a + (h + t))[|a|..], o) <==> present
    ensures present ==> StartsWith((a + (h + t))[|a|..], o + x)
  {
    Concat(a, h + t);
    OptionalHead((a + (h + t))[|a|..], h, t, u, o, x, present, k);
  }

  /** `OptionalHead` three pieces into the text. */
  lemma OptionalAfterThree(a: string, b: string, c: string, h: string, t: string, u: string, o: string,
                           x: string, present: bool, k: int)
    requires present ==> h == o + x
    requires !present ==> h == []
    requires StartsWith(t, u) && 0 <= k < |o| && k < |u| && u[k] != o[k]
    ensures StartsWith((a + (b + (c + (h + t))))[|a| + |b| + |c|..], o) <==> present
    ensures present ==> StartsWith((a + (b + (c + (h + t))))[|a| + |b| + |c|..], o + x)
  {
    SkipThree(a, b, c, h + t);
    OptionalHead((a + (b + (c + (h + t))))[|a| + |b| + |c|..], h, t, u, o, x, present, k);
  }

  /** `OptionalHead` three pieces into the text, the tail given as `u + v`. */
  lemma OptionalBeforeKnown(r: string, a: string, b: string, c: string, h: string, u: string, v: string,
                            o: string, x: string, present: bool, k: int)
    requires r == a + (b + (c + (h + (u + v))))
    requires present ==> h == o + x
    requires !present ==> h == []
    requires 0 <= k < |o| && k < |u| && u[k] != o[k]
    ensures StartsWith(r[|a| + |b| + |c|..], o) <==> present
    ensures present ==> StartsWith(r[|a| + |b| + |c|..], o + x)
  {
    Concat(u, v);
    OptionalAfterThree(a, b, c, h, u + v, u, o, x, present, k);
  }

  /** A Markdown fenced code block: an opening fence line carrying the tag,
      the body, and a closing fence line. */
  function Fenced(tag: string, body: string): string {
    "```" + tag + "\n" + body + "\n```\n"
  }

  /** Putting text in front moves an occurrence right by its length. */
  lemma OccursAfter(x: string, p: string, r: string, i: int)
    requires OccursAt(x, r, i)
    ensures OccursAt(x, p + r, |p| + i)
  {
    assert (p + r)[|p| + i..|p| + i + |x|] == r[i..i + |x|];
  }

  /** Putting text in front keeps a suffix. */
  lemma EndsAfter(p: string, r: string, suf: string)
    requires EndsWith(r, suf)
    ensures EndsWith(p + r, suf)
  {
    assert (p + r)[|p + r| - |suf|..] == r[|r| - |suf|..];
  }

  /** `sub` occurs in `s` starting at index `i`. */
  predicate OccursAt(sub: string, s: string, i: int) {
    0 <= i <= |s| - |sub| && s[i..i + |sub|] == sub
  }

  /** Text before a space that itself holds no space is determined by the
      whole: the first space marks where it ends. */
  lemma UpToFirstSpace(x1: string, y1: string, x2: string, y2: string)
    requires ' ' !in x1 && ' ' !in x2
    requires x1 + y1 == x2 + y2
    requires y1 != [] && y1[0] == ' ' && y2 != [] && y2[0] == ' '
    ensures x1 == x2 && y1 == y2
  {
    var w := x1 + y1;
    assert w[|x1|] == ' ' && w[|x2|] == ' ';
    assert forall j :: 0 <= j < |x1| ==> w[j] == x1[j];
    assert forall j :: 0 <= j < |x2| ==> w[j] == x2[j];
    assert |x1| == |x2|;
    assert x1 == w[..|x1|] == x2;
  }
}
