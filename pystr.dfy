// The Python 2 string, list and path primitives the modelled code is built
// from, with the exact semantics of CPython's str and posixpath.
module PyStr {
  import opened Wrappers

  /** `s.startswith(p)` */
  predicate StartsWith(s: string, p: string) {
    |p| <= |s| && s[..|p|] == p
  }

  /** `s.endswith(p)` */
  predicate EndsWith(s: string, p: string) {
    |p| <= |s| && s[|s| - |p|..] == p
  }

  /** `sub in s`: the substring test. */
  predicate Contains(s: string, sub: string)
    decreases |s|
  {
    StartsWith(s, sub) || (|s| > 0 && Contains(s[1..], sub))
  }

  /** `sub` occurs in `s` at index `i`. */
  predicate OccursAt(s: string, sub: string, i: int) {
    0 <= i <= |s| - |sub| && s[i..i + |sub|] == sub
  }

  /** `Contains` agrees with the existence of an occurrence, in both directions. */
  lemma {:induction false} ContainsIff(s: string, sub: string)
    ensures Contains(s, sub) <==> exists i :: OccursAt(s, sub, i)
    decreases |s|
  {
    if Contains(s, sub) {
      var i := ContainsWitness(s, sub);
    } else {
      forall i | OccursAt(s, sub, i) ensures false {
        OccursAtContains(s, sub, i);
      }
    }
  }

  lemma {:induction false} ContainsWitness(s: string, sub: string) returns (i: int)
    requires Contains(s, sub)
    ensures OccursAt(s, sub, i)
    decreases |s|
  {
    if StartsWith(s, sub) {
      i := 0;
    } else {
      var j := ContainsWitness(s[1..], sub);
      assert s[1..][j..j + |sub|] == s[j + 1..j + 1 + |sub|];
      i := j + 1;
    }
  }

  lemma {:induction false} OccursAtContains(s: string, sub: string, i: int)
    requires OccursAt(s, sub, i)
    ensures Contains(s, sub)
    decreases i
  {
    if i > 0 {
      assert s[1..][i - 1..i - 1 + |sub|] == s[i..i + |sub|];
      OccursAtContains(s[1..], sub, i - 1);
    }
  }

  /** A string always contains itself. */
  lemma ContainsSelf(s: string)
    ensures Contains(s, s)
  {
  }

  /** Text found inside a part is found inside anything that embeds the part. */
  lemma ContainsConcat(a: string, b: string, c: string, sub: string)
    requires Contains(b, sub)
    ensures Contains(a + b + c, sub)
  {
    var i := ContainsWitness(b, sub);
    assert (a + b + c)[|a| + i..|a| + i + |sub|] == b[i..i + |sub|];
    OccursAtContains(a + b + c, sub, |a| + i);
  }

  /** A prefix holding no first character of `sub` adds no occurrence of `sub`. */
  lemma {:induction false} ContainsSkip(pre: string, t: string, sub: string)
    requires |sub| > 0 && sub[0] !in pre
    ensures Contains(pre + t, sub) == Contains(t, sub)
    decreases |pre|
  {
    if pre == [] {
      assert pre + t == t;
    } else {
      assert (pre + t)[0] == pre[0];
      assert (pre + t)[1..] == pre[1..] + t;
      ContainsSkip(pre[1..], t, sub);
    }
  }

  /** Python's str.isspace() for one character. */
  predicate IsSpace(c: char) {
    c == ' ' || c == '\t' || c == '\n' || c == '\r' || c == '\U{B}' || c == '\U{C}'
  }

  predicate IsDigit(c: char) {
    '0' <= c <= '9'
  }

  /** Python's str.isalnum() restricted to ASCII. */
  predicate IsAlnum(c: char) {
    IsDigit(c) || ('a' <= c <= 'z') || ('A' <= c <= 'Z')
  }

  /** `sep.join(parts)` */
  function Join(sep: string, parts: seq<string>): string
    decreases |parts|
  {
    if |parts| == 0 then ""
    else if |parts| == 1 then parts[0]
    else parts[0] + sep + Join(sep, parts[1..])
  }

  lemma {:induction false} JoinAppend(sep: string, parts: seq<string>, last: string)
    requires |parts| > 0
    ensures Join(sep, parts + [last]) == Join(sep, parts) + sep + last
    decreases |parts|
  {
    if |parts| == 1 {
      assert parts + [last] == [parts[0], last];
      assert (parts + [last])[1..] == [last];
    } else {
      assert (parts + [last])[1..] == parts[1..] + [last];
      JoinAppend(sep, parts[1..], last);
    }
  }

  /** `s.split(c)` for a one-character separator: empty fields are kept. */
  function Split(s: string, c: char): (r: seq<string>)
    ensures |r| >= 1
    decreases |s|
  {
    if s == [] then [""]
    else
      var rest := Split(s[1..], c);
      if s[0] == c then [""] + rest
      else [[s[0]] + rest[0]] + rest[1..]
  }

  /** No field of a split holds the separator. */
  lemma {:induction false} SplitFields(s: string, c: char)
    ensures forall k :: 0 <= k < |Split(s, c)| ==> c !in Split(s, c)[k]
    decreases |s|
  {
    if s != [] {
      SplitFields(s[1..], c);
    }
  }

  /** Splitting and joining back with the same separator is the identity. */
  lemma {:induction false} JoinSplit(s: string, c: char)
    ensures Join([c], Split(s, c)) == s
    decreases |s|
  {
    if s != [] {
      var rest := Split(s[1..], c);
      JoinSplit(s[1..], c);
      if s[0] == c {
        assert Split(s, c)[1..] == rest;
      } else {
        var r := Split(s, c);
        if |rest| == 1 {
          assert r == [[s[0]] + rest[0]];
        } else {
          assert r[1..] == rest[1..];
          assert Join([c], rest) == rest[0] + [c] + Join([c], rest[1..]);
        }
      }
    }
  }

  /** Joining parts that do not contain the separator and splitting again gives the parts. */
  lemma {:induction false} SplitJoin(parts: seq<string>, c: char)
    requires |parts| >= 1
    requires forall k :: 0 <= k < |parts| ==> c !in parts[k]
    ensures Split(Join([c], parts), c) == parts
    decreases |parts|, |parts[0]|
  {
    if |parts| == 1 {
      SplitNoSep(parts[0], c);
    } else if parts[0] == [] {
      SplitJoin(parts[1..], c);
      assert Join([c], parts) == [c] + Join([c], parts[1..]);
      assert ([c] + Join([c], parts[1..]))[1..] == Join([c], parts[1..]);
    } else {
      var p0 := parts[0];
      var shorter := [p0[1..]] + parts[1..];
      SplitJoin(shorter, c);
      assert shorter[1..] == parts[1..];
      assert Join([c], shorter) == p0[1..] + [c] + Join([c], parts[1..]);
      assert Join([c], parts) == p0 + [c] + Join([c], parts[1..]);
      assert Join([c], parts)[1..] == Join([c], shorter);
      assert [p0[0]] + p0[1..] == p0;
    }
  }

  lemma {:induction false} SplitNoSep(s: string, c: char)
    requires c !in s
    ensures Split(s, c) == [s]
    decreases |s|
  {
    if s != [] {
      SplitNoSep(s[1..], c);
      assert [s[0]] + s[1..] == s;
    }
  }

  /** The longest prefix of `s` holding no whitespace. */
  function Token(s: string): (t: string)
    ensures |t| <= |s|
    decreases |s|
  {
    if s == [] || IsSpace(s[0]) then "" else [s[0]] + Token(s[1..])
  }

  /** The token is a prefix without whitespace, followed by whitespace or the end. */
  lemma {:induction false} TokenFacts(s: string)
    ensures var t := Token(s);
      t == s[..|t|] && (forall k :: 0 <= k < |t| ==> !IsSpace(t[k])) && (|t| < |s| ==> IsSpace(s[|t|]))
    decreases |s|
  {
    if s != [] && !IsSpace(s[0]) {
      TokenFacts(s[1..]);
      var t := Token(s);
      assert t == [s[0]] + Token(s[1..]);
    }
  }

  /** `s.split()`: whitespace-separated tokens, never empty. */
  function SplitWs(s: string): seq<string>
    decreases |s|
  {
    if s == [] then []
    else if IsSpace(s[0]) then SplitWs(s[1..])
    else
      var t := Token(s);
      [t] + SplitWs(s[|t|..])
  }

  /** Every token of `s.split()` is non-empty and holds no whitespace. */
  lemma {:induction false} SplitWsFacts(s: string)
    ensures forall k :: 0 <= k < |SplitWs(s)| ==> |SplitWs(s)[k]| > 0
    ensures forall k, j :: 0 <= k < |SplitWs(s)| && 0 <= j < |SplitWs(s)[k]| ==> !IsSpace(SplitWs(s)[k][j])
    decreases |s|
  {
    if s != [] {
      if IsSpace(s[0]) {
        SplitWsFacts(s[1..]);
      } else {
        var t := Token(s);
        TokenFacts(s);
        SplitWsFacts(s[|t|..]);
        var r := SplitWs(s);
        assert r == [t] + SplitWs(s[|t|..]);
        forall k | 0 < k < |r| ensures r[k] == SplitWs(s[|t|..])[k - 1] {
        }
      }
    }
  }

  /** `s.replace(pat, rep)`: every non-overlapping occurrence, left to right. */
  function Replace(s: string, pat: string, rep: string): string
    decreases |s|
  {
    if |pat| == 0 then ReplaceEmpty(s, rep)
    else if StartsWith(s, pat) then rep + Replace(s[|pat|..], pat, rep)
    else if s == [] then ""
    else [s[0]] + Replace(s[1..], pat, rep)
  }

  /** `s.replace("", rep)` puts `rep` before every character and at the end. */
  function ReplaceEmpty(s: string, rep: string): string
    decreases |s|
  {
    if s == [] then rep else rep + [s[0]] + ReplaceEmpty(s[1..], rep)
  }

  /** Replacing text that does not occur leaves the string unchanged. */
  lemma {:induction false} ReplaceAbsent(s: string, pat: string, rep: string)
    requires |pat| > 0 && !Contains(s, pat)
    ensures Replace(s, pat, rep) == s
    decreases |s|
  {
    if s != [] {
      ReplaceAbsent(s[1..], pat, rep);
      assert [s[0]] + s[1..] == s;
    }
  }

  /** `chars` as the set of characters given to strip. */
  function CharSet(chars: string): set<char> {
    set k | 0 <= k < |chars| :: chars[k]
  }

  /** `s.lstrip(chars)` */
  function LStrip(s: string, chars: set<char>): (r: string)
    ensures |r| <= |s| && r == s[|s| - |r|..]
    ensures r == [] || r[0] !in chars
    ensures forall k :: 0 <= k < |s| - |r| ==> s[k] in chars
    decreases |s|
  {
    if s != [] && s[0] in chars then LStrip(s[1..], chars) else s
  }

  /** Stripping a leading run of set characters up to a character outside the set. */
  lemma {:induction false} LStripPrefix(a: string, b: string, cs: set<char>)
    requires forall k :: 0 <= k < |a| ==> a[k] in cs
    requires b == [] || b[0] !in cs
    ensures LStrip(a + b, cs) == b
    decreases |a|
  {
    if a != [] {
      assert (a + b)[0] == a[0];
      assert (a + b)[1..] == a[1..] + b;
      LStripPrefix(a[1..], b, cs);
    } else {
      assert a + b == b;
    }
  }

  /** `s.rstrip(chars)` */
  function RStrip(s: string, chars: set<char>): (r: string)
    ensures |r| <= |s| && r == s[..|r|]
    ensures r == [] || r[|r| - 1] !in chars
    ensures forall k :: |r| <= k < |s| ==> s[k] in chars
    decreases |s|
  {
    if s != [] && s[|s| - 1] in chars then RStrip(s[..|s| - 1], chars) else s
  }

  /** `s.strip(chars)`: characters of the set are trimmed from both ends. */
  function Strip(s: string, chars: set<char>): string {
    RStrip(LStrip(s, chars), chars)
  }

  lemma AppendAssoc<T>(a: seq<T>, b: seq<T>, c: seq<T>)
    ensures (a + b) + c == a + (b + c)
  {
  }

  /** The first `n` characters of the suffix from `i` are the piece from `i` to `i + n`. */
  lemma SliceOfSuffix(s: string, i: nat, n: nat)
    requires i + n <= |s|
    ensures s[i..][..n] == s[i..i + n]
  {
  }

  /** A stripped string is a contiguous piece of the original with no set character at either end. */
  lemma StripShape(s: string, chars: set<char>)
    ensures var r := Strip(s, chars);
      (r == [] || (r[0] !in chars && r[|r| - 1] !in chars)) &&
      exists i :: OccursAt(s, r, i)
  {
    var l := LStrip(s, chars);
    var r := RStrip(l, chars);
    var i := |s| - |l|;
    SliceOfSuffix(s, i, |r|);
    assert OccursAt(s, r, i);
  }

  /** Stripping twice is stripping once. */
  lemma StripIdempotent(s: string, chars: set<char>)
    ensures Strip(Strip(s, chars), chars) == Strip(s, chars)
  {
    var r := Strip(s, chars);
    assert LStrip(r, chars) == r;
    assert RStrip(r, chars) == r;
  }

  /** The characters Python 2 treats as whitespace. */
  const WhiteSpace: set<char> := {' ', '\t', '\n', '\r', '\U{B}', '\U{C}'}

  /** `s.strip()` with no argument. */
  function StripWs(s: string): string {
    Strip(s, WhiteSpace)
  }

  /** posixpath.join(a, b): an absolute `b` discards `a`. */
  function PathJoin(a: string, b: string): string {
    if StartsWith(b, "/") then b
    else if a == "" || EndsWith(a, "/") then a + b
    else a + "/" + b
  }

  /** The joined path ends with its last part, and is that part when it is absolute. */
  lemma PathJoinFacts(a: string, b: string)
    ensures StartsWith(b, "/") ==> PathJoin(a, b) == b
    ensures EndsWith(PathJoin(a, b), b)
  {
    var r := PathJoin(a, b);
    assert r[|r| - |b|..] == b;
  }

  function PathJoin3(a: string, b: string, c: string): string {
    PathJoin(PathJoin(a, b), c)
  }

  /** posixpath.join of a relative name onto a directory that does not end in '/'. */
  lemma PathJoinPlain(a: string, b: string)
    requires a != "" && !EndsWith(a, "/") && !StartsWith(b, "/")
    ensures PathJoin(a, b) == a + "/" + b
  {
  }

  /** The index just after the last '/' of `p`, or 0. */
  function AfterLastSlash(p: string): (i: nat)
    ensures i <= |p|
    ensures i > 0 ==> p[i - 1] == '/'
    ensures forall k :: i <= k < |p| ==> p[k] != '/'
    decreases |p|
  {
    if p == [] then 0
    else if p[|p| - 1] == '/' then |p|
    else AfterLastSlash(p[..|p| - 1])
  }

  /** posixpath.basename */
  function BaseName(p: string): (r: string)
    ensures '/' !in r
  {
    var r := p[AfterLastSlash(p)..];
    assert forall k :: 0 <= k < |r| ==> r[k] == p[AfterLastSlash(p) + k];
    r
  }

  predicate AllSlashes(s: string) {
    forall k :: 0 <= k < |s| ==> s[k] == '/'
  }

  /** posixpath.dirname: the head, with trailing slashes dropped unless it is all slashes. */
  function DirName(p: string): string {
    var head := p[..AfterLastSlash(p)];
    if head != "" && !AllSlashes(head) then RStrip(head, {'/'}) else head
  }

  /** The index of the last '.' of `s`, if any. */
  function LastDot(s: string): (r: Option<nat>)
    ensures r.Some? ==> r.value < |s| && s[r.value] == '.'
    ensures r.Some? ==> forall k :: r.value < k < |s| ==> s[k] != '.'
    ensures r.None? ==> forall k :: 0 <= k < |s| ==> s[k] != '.'
    decreases |s|
  {
    if s == [] then None
    else if s[|s| - 1] == '.' then Some(|s| - 1)
    else LastDot(s[..|s| - 1])
  }

  /** Does `s[from..to]` hold a character other than '.'? */
  predicate HasNonDot(s: string, from: nat, to: nat)
    requires from <= to <= |s|
  {
    exists k :: from <= k < to && s[k] != '.'
  }

  /** posixpath.splitext: the root and the extension (which starts at the last dot of the last component, unless every character before that dot in the component is a dot). */
  function SplitExt(p: string): (r: (string, string))
    ensures r.0 + r.1 == p
  {
    var sepEnd := AfterLastSlash(p);
    var dot := LastDot(p);
    if dot.Some? && dot.value >= sepEnd && HasNonDot(p, sepEnd, dot.value) then
      assert p[..dot.value] + p[dot.value..] == p;
      (p[..dot.value], p[dot.value..])
    else (p, "")
  }

  function DigitChar(d: nat): char
    requires d < 10
  {
    "0123456789"[d]
  }

  /** `str(n)` for a natural number. */
  function NatToStr(n: nat): (r: string)
    ensures |r| > 0 && forall k :: 0 <= k < |r| ==> IsDigit(r[k])
    ensures n > 0 ==> r[0] != '0'
  {
    if n < 10 then [DigitChar(n)] else NatToStr(n / 10) + [DigitChar(n % 10)]
  }

  /** `str(n)` for an int. */
  function IntToStr(n: int): string {
    if n < 0 then "-" + NatToStr(-n) else NatToStr(n)
  }

  function DigitValue(c: char): nat
    requires IsDigit(c)
  {
    (c as int - '0' as int) as nat
  }

  /** The value of a string of decimal digits. */
  function DigitsValue(s: string): nat
    requires forall k :: 0 <= k < |s| ==> IsDigit(s[k])
    decreases |s|
  {
    if s == [] then 0 else DigitsValue(s[..|s| - 1]) * 10 + DigitValue(s[|s| - 1])
  }

  lemma {:induction false} NatToStrValue(n: nat)
    ensures DigitsValue(NatToStr(n)) == n
    decreases n
  {
    if n >= 10 {
      NatToStrValue(n / 10);
      var r := NatToStr(n);
      assert r[..|r| - 1] == NatToStr(n / 10);
    }
  }

  lemma NatToStrInjective(a: nat, b: nat)
    requires NatToStr(a) == NatToStr(b)
    ensures a == b
  {
    NatToStrValue(a);
    NatToStrValue(b);
  }

  /** `str` is injective on integers: distinct numbers print differently. */
  lemma IntToStrInjective(a: int, b: int)
    requires IntToStr(a) == IntToStr(b)
    ensures a == b
  {
    if a < 0 && b < 0 {
      assert NatToStr(-a) == IntToStr(a)[1..];
      assert NatToStr(-b) == IntToStr(b)[1..];
      NatToStrInjective(-a, -b);
    } else if a >= 0 && b >= 0 {
      NatToStrInjective(a, b);
    }
  }

  predicate AllDigits(d: string) {
    forall k :: 0 <= k < |d| ==> IsDigit(d[k])
  }

  /** A non-empty run of decimal digits. */
  function ParseUnsigned(d: string): Option<nat> {
    if |d| > 0 && AllDigits(d) then Some(DigitsValue(d)) else None
  }

  /** Python 2 `int(s)` for a decimal literal: optional surrounding whitespace and sign, at least one digit. */
  function ParseInt(s: string): Option<int> {
    var t := StripWs(s);
    if |t| > 0 && (t[0] == '-' || t[0] == '+') then
      match ParseUnsigned(t[1..])
      case None => None
      case Some(v) => Some(if t[0] == '-' then -(v as int) else v as int)
    else
      match ParseUnsigned(t)
      case None => None
      case Some(v) => Some(v as int)
  }

  /** A string with no whitespace at either end is unchanged by `strip()`. */
  lemma StripWsNoop(s: string)
    requires |s| > 0 && s[0] !in WhiteSpace && s[|s| - 1] !in WhiteSpace
    ensures StripWs(s) == s
  {
    assert LStrip(s, WhiteSpace) == s;
  }

  lemma ParseNatToStr(n: nat)
    ensures ParseInt(NatToStr(n)) == Some(n)
  {
    var d := NatToStr(n);
    StripWsNoop(d);
    NatToStrValue(n);
    assert ParseUnsigned(d) == Some(n);
  }

  lemma ParseNegToStr(n: nat)
    requires n > 0
    ensures ParseInt("-" + NatToStr(n)) == Some(-(n as int))
  {
    var d := NatToStr(n);
    var s := "-" + d;
    assert s[|s| - 1] == d[|d| - 1];
    StripWsNoop(s);
    assert s[1..] == d;
    NatToStrValue(n);
    assert ParseUnsigned(d) == Some(n);
  }

  /** `int(str(n)) == n` */
  lemma ParseIntToStr(n: int)
    ensures ParseInt(IntToStr(n)) == Some(n)
  {
    var t := IntToStr(n);
    if n < 0 {
      var m: nat := -n;
      assert t == "-" + NatToStr(m);
      ParseNegToStr(m);
    } else {
      assert t == NatToStr(n);
      ParseNatToStr(n);
    }
  }

  /** The index of the first element of `xs` that contains `sub`. */
  function FirstContaining(xs: seq<string>, sub: string): (r: Option<nat>)
    ensures r.Some? ==> r.value < |xs| && Contains(xs[r.value], sub)
    ensures r.Some? ==> forall k :: 0 <= k < r.value ==> !Contains(xs[k], sub)
    ensures r.None? ==> forall k :: 0 <= k < |xs| ==> !Contains(xs[k], sub)
    decreases |xs|
  {
    if xs == [] then None
    else if Contains(xs[0], sub) then Some(0)
    else match FirstContaining(xs[1..], sub)
      case None => None
      case Some(i) => Some(i + 1)
  }

  /** The index of the first element of `xs` equal to `x`. */
  function IndexOf<T(==)>(xs: seq<T>, x: T): (r: Option<nat>)
    ensures r.Some? ==> r.value < |xs| && xs[r.value] == x
    ensures r.Some? ==> forall k :: 0 <= k < r.value ==> xs[k] != x
    ensures r.None? ==> x !in xs
    decreases |xs|
  {
    if xs == [] then None
    else if xs[0] == x then Some(0)
    else match IndexOf(xs[1..], x)
      case None => None
      case Some(i) => Some(i + 1)
  }

  /** `del xs[i]` */
  function RemoveAt<T>(xs: seq<T>, i: nat): (r: seq<T>)
    requires i < |xs|
    ensures |r| == |xs| - 1
  {
    xs[..i] + xs[i + 1..]
  }

  /** reversed(xs) */
  function Reverse<T>(xs: seq<T>): (r: seq<T>)
    ensures |r| == |xs|
    ensures forall k :: 0 <= k < |xs| ==> r[k] == xs[|xs| - 1 - k]
    decreases |xs|
  {
    if xs == [] then [] else Reverse(xs[1..]) + [xs[0]]
  }

  /** Python's `s * 2` for a string. */
  function Twice(s: string): string {
    s + s
  }
}
