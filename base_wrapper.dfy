// The command-line assembly shared by every tool wrapper: the wrapper's
// fields after `init`, the round-suffix and name clean-ups, threading, and
// the redirect rules `setup_run` appends before joining the command line.
module BaseWrappers {
  import opened Wrappers
  import opened PyStr
  import opened Params

  // ---------------------------------------------------------------------
  // Splitting lemmas the name helpers rely on
  // ---------------------------------------------------------------------

  /** The first field of `Split(t, c)` starts with any separator-free prefix of `t`. */
  lemma {:induction false} SplitHeadPrefix(t: string, c: char, m: nat)
    requires m <= |t|
    requires forall i :: 0 <= i < m ==> t[i] != c
    ensures StartsWith(Split(t, c)[0], t[..m])
    decreases m
  {
    if m > 0 {
      SplitHeadPrefix(t[1..], c, m - 1);
      var rest := Split(t[1..], c);
      assert Split(t, c)[0] == [t[0]] + rest[0];
      assert t[..m] == [t[0]] + t[1..][..m - 1];
    }
  }

  /** Text holding no separator that occurs in `s` occurs inside one field of `Split(s, c)`. */
  lemma {:induction false} SplitKeepsContains(s: string, c: char, sub: string) returns (k: nat)
    requires |sub| > 0 && c !in sub && Contains(s, sub)
    ensures k < |Split(s, c)| && Contains(Split(s, c)[k], sub)
    decreases |s|
  {
    var rest := Split(s[1..], c);
    if StartsWith(s, sub) {
      assert s[0] == sub[0];
      forall i | 0 <= i < |sub| - 1 ensures s[1..][i] != c {
        assert s[1..][i] == sub[i + 1];
      }
      SplitHeadPrefix(s[1..], c, |sub| - 1);
      var head := [s[0]] + rest[0];
      assert Split(s, c)[0] == head;
      assert sub == [s[0]] + s[1..][..|sub| - 1];
      assert head[..|sub|] == sub;
      k := 0;
    } else {
      var j := SplitKeepsContains(s[1..], c, sub);
      if s[0] == c {
        assert Split(s, c) == [""] + rest;
        k := j + 1;
      } else if j == 0 {
        ContainsConcat([s[0]], rest[0], "", sub);
        assert [s[0]] + rest[0] + "" == Split(s, c)[0];
        k := 0;
      } else {
        assert Split(s, c)[j] == rest[j];
        k := j;
      }
    }
  }

  /** Such text is found by `FirstContaining` among the fields. */
  lemma SplitFindsContaining(s: string, c: char, sub: string)
    requires |sub| > 0 && c !in sub && Contains(s, sub)
    ensures FirstContaining(Split(s, c), sub).Some?
  {
    var k := SplitKeepsContains(s, c, sub);
  }

  /** Splitting `a + [c] + b` splits `a` and `b` separately. */
  lemma {:induction false} SplitConcat(a: string, b: string, c: char)
    ensures Split(a + [c] + b, c) == Split(a, c) + Split(b, c)
    decreases |a|
  {
    var s := a + [c] + b;
    if a == [] {
      assert s[1..] == b;
    } else {
      SplitConcat(a[1..], b, c);
      assert s[1..] == a[1..] + [c] + b;
      SplitConsStep(a, s, Split(b, c), c);
    }
  }

  /** One step of SplitConcat: a first character in front of both sides. */
  lemma SplitConsStep(a: string, s: string, sb: seq<string>, c: char)
    requires a != [] && s != [] && s[0] == a[0]
    requires Split(s[1..], c) == Split(a[1..], c) + sb
    ensures Split(s, c) == Split(a, c) + sb
  {
    var ra := Split(a[1..], c);
    var rest := Split(s[1..], c);
    if a[0] == c {
      assert Split(s, c) == [""] + rest;
      assert Split(a, c) == [""] + ra;
      ConsAssoc("", ra, sb);
    } else {
      var x := [a[0]] + ra[0];
      HeadOfAppend(ra, sb);
      assert Split(s, c) == [x] + rest[1..];
      assert Split(a, c) == [x] + ra[1..];
      ConsAssoc(x, ra[1..], sb);
    }
  }

  /** The head and the tail of `u + v` when `u` is not empty. */
  lemma HeadOfAppend<T>(u: seq<T>, v: seq<T>)
    requires u != []
    ensures (u + v)[0] == u[0] && (u + v)[1..] == u[1..] + v
  {
  }

  /** An element of `v` sits in `u + v` after all of `u`. */
  lemma IndexAfter<T>(u: seq<T>, v: seq<T>, k: nat)
    requires k < |v|
    ensures |u| + k < |u + v| && (u + v)[|u| + k] == v[k]
  {
  }

  /** A sequence that starts with `u` and then holds `v` pointwise is `u + v`. */
  lemma AppendedPointwise<T>(r: seq<T>, u: seq<T>, v: seq<T>)
    requires |r| == |u| + |v| && r[..|u|] == u
    requires forall k :: 0 <= k < |v| ==> r[|u| + k] == v[k]
    ensures r == u + v
  {
    forall k | 0 <= k < |r|
      ensures r[k] == (u + v)[k]
    {
      if k < |u| {
        assert r[k] == r[..|u|][k];
      } else {
        assert r[|u| + (k - |u|)] == v[k - |u|];
      }
    }
  }

  /** Prepending an element commutes with appending a sequence. */
  lemma ConsAssoc<T>(x: T, u: seq<T>, v: seq<T>)
    ensures [x] + u + v == [x] + (u + v)
  {
  }

  // ---------------------------------------------------------------------
  // prog_name_clean, join_split_cmd, name_clean
  // ---------------------------------------------------------------------

  /** `prog_name_clean`: drop the '_'-fields from the first one containing "round". */
  function ProgNameClean(name: string): string {
    if Contains(name, "round") then
      var parts := Split(name, '_');
      SplitFindsContaining(name, '_', "round");
      var i := FirstContaining(parts, "round").value;
      Join("_", parts[..i])
    else name
  }

  /**
   * A name without "round" is returned unchanged; otherwise no '_'-field of
   * the result contains "round", so cleaning twice is cleaning once.
   */
  lemma ProgNameCleanFields(name: string)
    ensures !Contains(name, "round") ==> ProgNameClean(name) == name
    ensures forall k :: 0 <= k < |Split(ProgNameClean(name), '_')| ==>
      !Contains(Split(ProgNameClean(name), '_')[k], "round")
  {
    var parts := Split(name, '_');
    if Contains(name, "round") {
      var k := SplitKeepsContains(name, '_', "round");
      var i := FirstContaining(parts, "round").value;
      var kept := parts[..i];
      if i == 0 {
        assert Join("_", kept) == "";
        assert Split("", '_') == [""];
        assert !StartsWith("", "round");
      } else {
        SplitFields(name, '_');
        SplitJoin(kept, '_');
      }
    } else {
      forall k | 0 <= k < |parts| ensures !Contains(parts[k], "round") {
        if Contains(parts[k], "round") {
          JoinSplit(name, '_');
          JoinContainsPart(parts, k, "round");
        }
      }
      JoinSplit(name, '_');
      SplitFields(name, '_');
      SplitJoin(parts, '_');
    }
  }

  /** Text inside one part is inside the '_'-join of the parts. */
  lemma {:induction false} JoinContainsPart(parts: seq<string>, k: nat, sub: string)
    requires k < |parts| && Contains(parts[k], sub)
    ensures Contains(Join("_", parts), sub)
    decreases |parts|
  {
    if |parts| == 1 {
    } else if k == 0 {
      ContainsConcat("", parts[0], "_" + Join("_", parts[1..]), sub);
      assert "" + parts[0] + ("_" + Join("_", parts[1..])) == Join("_", parts);
    } else {
      JoinContainsPart(parts[1..], k - 1, sub);
      ContainsConcat(parts[0] + "_", Join("_", parts[1..]), "", sub);
      assert parts[0] + "_" + Join("_", parts[1..]) + "" == Join("_", parts);
    }
  }

  /** Cleaning idempotence follows: a cleaned name has no field containing "round". */
  lemma ProgNameCleanIdempotent(name: string)
    ensures ProgNameClean(ProgNameClean(name)) == ProgNameClean(name)
  {
    var r := ProgNameClean(name);
    ProgNameCleanFields(name);
    if Contains(r, "round") {
      JoinSplit(r, '_');
      var k := SplitKeepsContains(r, '_', "round");
    }
  }

  /** The first part containing `sub` is the first part after a prefix in which none does. */
  lemma FirstContainingAt(pre: seq<string>, post: seq<string>, sub: string)
    requires forall k :: 0 <= k < |pre| ==> !Contains(pre[k], sub)
    requires |post| > 0 && Contains(post[0], sub)
    ensures FirstContaining(pre + post, sub) == Some(|pre|)
  {
    var xs := pre + post;
    assert xs[|pre|] == post[0];
    forall k | 0 <= k < |pre| ensures !Contains(xs[k], sub) {
      assert xs[k] == pre[k];
    }
  }

  /** ProgNameClean of a name whose '_'-fields are `pk`, then a field containing "round", then more. */
  lemma ProgNameCleanFieldsAt(name: string, pk: seq<string>, post: seq<string>)
    requires Split(name, '_') == pk + post
    requires forall k :: 0 <= k < |pk| ==> !Contains(pk[k], "round")
    requires |post| > 0 && Contains(post[0], "round")
    ensures ProgNameClean(name) == Join("_", pk)
  {
    FirstContainingAt(pk, post, "round");
    JoinSplit(name, '_');
    if !Contains(name, "round") {
      JoinContainsPart(pk + post, |pk|, "round");
    }
    assert (pk + post)[..|pk|] == pk;
  }

  /** K + "_round_" + N is cleaned back to K when no '_'-field of K contains "round". */
  lemma ProgNameCleanRound(key: string, n: int)
    requires forall k :: 0 <= k < |Split(key, '_')| ==> !Contains(Split(key, '_')[k], "round")
    ensures ProgNameClean(key + "_" + "round" + "_" + IntToStr(n)) == key
  {
    var num := IntToStr(n);
    RoundNameFields(key, num);
    ContainsSelf("round");
    ProgNameCleanFieldsAt(key + "_" + "round" + "_" + num, Split(key, '_'), ["round"] + Split(num, '_'));
    JoinSplit(key, '_');
  }

  /** The '_'-fields of K + "_round_" + N: those of K, "round", then those of N. */
  lemma RoundNameFields(key: string, num: string)
    ensures Split(key + "_" + "round" + "_" + num, '_') == Split(key, '_') + (["round"] + Split(num, '_'))
  {
    var tail := "round" + "_" + num;
    assert key + "_" + "round" + "_" + num == key + "_" + tail;
    SplitConcat(key, tail, '_');
    SplitConcat("round", num, '_');
    SplitNoSep("round", '_');
  }

  /** A name "<word>_round<d>" is cleaned to the word. */
  lemma ProgNameCleanOne(w: string, d: string)
    requires '_' !in w && 'r' !in w && '_' !in d
    ensures ProgNameClean(w + "_round" + d) == w
  {
    RoundField(d);
    NoRound(w);
    var name := w + ['_'] + ("round" + d);
    assert name == w + "_round" + d;
    SplitConcat(w, "round" + d, '_');
    SplitNoSep(w, '_');
    SplitNoSep("round" + d, '_');
    ProgNameCleanFieldsAt(name, [w], ["round" + d]);
  }

  /** A name "<word1>_<word2>_round<d>" is cleaned to "<word1>_<word2>". */
  lemma ProgNameCleanTwo(w1: string, w2: string, d: string)
    requires '_' !in w1 && 'r' !in w1 && '_' !in w2 && 'r' !in w2 && '_' !in d
    ensures ProgNameClean(w1 + "_" + w2 + "_round" + d) == w1 + "_" + w2
  {
    RoundField(d);
    NoRound(w1);
    NoRound(w2);
    var name := w1 + ['_'] + (w2 + ['_'] + ("round" + d));
    assert name == w1 + "_" + w2 + "_round" + d;
    SplitConcat(w1, w2 + ['_'] + ("round" + d), '_');
    SplitConcat(w2, "round" + d, '_');
    SplitNoSep(w1, '_');
    SplitNoSep(w2, '_');
    SplitNoSep("round" + d, '_');
    assert Split(name, '_') == [w1, w2] + ["round" + d];
    ProgNameCleanFieldsAt(name, [w1, w2], ["round" + d]);
  }

  /** The unit test's oracle for a single-word program: "fastqc_round2" is cleaned to "fastqc". */
  lemma ProgNameCleanFastqc(name: string)
    requires name == "fastqc_round2"
    ensures ProgNameClean(name) == "fastqc"
  {
    ProgNameCleanOne("fastqc", "2");
    assert "fastqc" + "_round" + "2" == name;
  }

  /** The unit test's oracle for a sub-command: "samtools_view_round3" is cleaned to "samtools_view". */
  lemma ProgNameCleanSamtools(name: string)
    requires name == "samtools_view_round3"
    ensures ProgNameClean(name) == "samtools_view"
  {
    ProgNameCleanTwo("samtools", "view", "3");
    assert "samtools" + "_" + "view" + "_round" + "3" == name;
  }

  /** "round" followed by a run number contains "round". */
  lemma RoundField(d: string)
    ensures Contains("round" + d, "round")
  {
    ContainsConcat("", "round", d, "round");
    assert "" + "round" + d == "round" + d;
  }

  /** A word without an 'r' does not contain "round". */
  lemma NoRound(w: string)
    requires 'r' !in w
    ensures !Contains(w, "round")
  {
    forall i | 0 <= i <= |w| - 5 ensures !OccursAt(w, "round", i) {
      assert w[i..i + 5][0] == w[i];
      assert w[i] != 'r';
    }
    ContainsIff(w, "round");
  }

  /** `s` with every `a` turned into `b`. */
  function ReplaceChar(s: string, a: char, b: char): (r: string)
    ensures |r| == |s|
    ensures forall i :: 0 <= i < |s| ==> r[i] == (if s[i] == a then b else s[i])
    decreases |s|
  {
    if s == [] then [] else [if s[0] == a then b else s[0]] + ReplaceChar(s[1..], a, b)
  }

  /** `join_split_cmd`: the '_'-fields joined with spaces. */
  function JoinSplitCmd(name: string): string {
    Join(" ", Split(name, '_'))
  }

  /** Joining the `c`-fields with `d` is replacing every `c` by `d`. */
  lemma {:induction false} JoinSplitReplace(s: string, c: char, d: char)
    ensures Join([d], Split(s, c)) == ReplaceChar(s, c, d)
    decreases |s|
  {
    if s != [] {
      var rest := Split(s[1..], c);
      JoinSplitReplace(s[1..], c, d);
      if s[0] == c {
        assert Split(s, c)[1..] == rest;
      } else {
        var r := Split(s, c);
        if |rest| == 1 {
          assert r == [[s[0]] + rest[0]];
        } else {
          assert r[1..] == rest[1..];
          assert Join([d], rest) == rest[0] + [d] + Join([d], rest[1..]);
        }
      }
    }
  }

  /** `join_split_cmd` turns every '_' into a space and keeps every other character. */
  lemma JoinSplitCmdReplaces(name: string)
    ensures |JoinSplitCmd(name)| == |name|
    ensures forall i :: 0 <= i < |name| ==>
      JoinSplitCmd(name)[i] == (if name[i] == '_' then ' ' else name[i])
  {
    JoinSplitReplace(name, '_', ' ');
  }

  /** The whitespace tokens of `name`, with the first one containing `tag` deleted if `tag` occurs in `name`. */
  function DropTagged(name: string, toks: seq<string>, tag: string): Result<seq<string>> {
    if Contains(name, tag) then
      match FirstContaining(toks, tag)
      case None => Failure("IndexError: list index out of range")
      case Some(i) => Success(RemoveAt(toks, i))
    else Success(toks)
  }

  /** `name_clean`: drop the tokens tagged Xmx, -T and bqsr, then join with '_'. */
  function NameClean(name: string): Result<string> {
    var t1 :- DropTagged(name, SplitWs(name), "Xmx");
    var t2 :- DropTagged(name, t1, "-T");
    var t3 :- DropTagged(name, t2, "bqsr");
    Success(Join("_", t3))
  }

  /** A string with no whitespace is one token. */
  lemma SplitWsToken(t: string)
    requires |t| > 0 && forall i :: 0 <= i < |t| ==> !IsSpace(t[i])
    ensures SplitWs(t) == [t]
  {
    TokenFacts(t);
    assert Token(t) == t;
    assert t[|t|..] == [];
  }

  /** Text with no whitespace at its end and a space before more text splits into the two token lists. */
  lemma {:induction false} SplitWsSpace(a: string, b: string)
    ensures SplitWs(a + " " + b) == SplitWs(a) + SplitWs(b)
    decreases |a|
  {
    var s := a + " " + b;
    if a == [] {
      assert s[1..] == b;
    } else if IsSpace(a[0]) {
      SplitWsSpace(a[1..], b);
      assert s[1..] == a[1..] + " " + b;
    } else {
      var t := Token(a);
      TokenFacts(a);
      SplitWsSpace(a[|t|..], b);
      SplitWsTokenStep(a, b);
    }
  }

  /** The step of SplitWsSpace at a first token: it leads both sides. */
  lemma SplitWsTokenStep(a: string, b: string)
    requires a != [] && !IsSpace(a[0])
    requires |Token(a)| <= |a|
    requires SplitWs(a[|Token(a)|..] + " " + b) == SplitWs(a[|Token(a)|..]) + SplitWs(b)
    ensures SplitWs(a + " " + b) == SplitWs(a) + SplitWs(b)
  {
    var s := a + " " + b;
    var t := Token(a);
    TokenPrefix(a, " " + b);
    assert s == a + (" " + b);
    assert Token(s) == t;
    assert s[|t|..] == a[|t|..] + " " + b;
    assert SplitWs(s) == [t] + SplitWs(s[|t|..]);
    assert SplitWs(a) == [t] + SplitWs(a[|t|..]);
    ConsAssoc(t, SplitWs(a[|t|..]), SplitWs(b));
  }

  /** The first token of `a + x` is the first token of `a` when `x` starts with a space. */
  lemma {:induction false} TokenPrefix(a: string, x: string)
    requires |x| > 0 && IsSpace(x[0])
    ensures Token(a + x) == Token(a)
    decreases |a|
  {
    if a != [] && !IsSpace(a[0]) {
      TokenPrefix(a[1..], x);
      assert (a + x)[1..] == a[1..] + x;
    }
  }

  /** A leading space adds no token. */
  lemma SplitWsLeadingSpace(x: string)
    ensures SplitWs(" " + x) == SplitWs(x)
  {
    assert (" " + x)[1..] == x;
  }

  /** name_clean when the Xmx and -T tokens are found and no "bqsr" occurs. */
  lemma NameCleanDrops(name: string, i: nat, j: nat)
    requires Contains(name, "Xmx") && FirstContaining(SplitWs(name), "Xmx") == Some(i)
    requires Contains(name, "-T") && FirstContaining(RemoveAt(SplitWs(name), i), "-T") == Some(j)
    requires !Contains(name, "bqsr")
    ensures NameClean(name) == Success(Join("_", RemoveAt(RemoveAt(SplitWs(name), i), j)))
  {
  }

  /** The name the GATK wrapper gives to `init`: "gatk", the memory flag, "-T" and the tool. */
  function GatkName(mem: string, tool: string): string {
    "gatk" + " " + (" -Xmx" + mem + "M") + " " + "-T" + " " + tool
  }

  /** A string none of whose characters is whitespace. */
  predicate IsWord(w: string) {
    |w| > 0 && forall i :: 0 <= i < |w| ==> !IsSpace(w[i])
  }

  /** Four words joined by single spaces, with an extra space before the second, split back into the four. */
  lemma FourWords(a: string, b: string, c: string, d: string)
    requires IsWord(a) && IsWord(b) && IsWord(c) && IsWord(d)
    ensures SplitWs(a + " " + (" " + b) + " " + c + " " + d) == [a, b, c, d]
  {
    var rest := c + " " + d;
    assert a + " " + (" " + b) + " " + c + " " + d == a + " " + ((" " + b) + " " + rest);
    SplitWsSpace(a, (" " + b) + " " + rest);
    SplitWsSpace(" " + b, rest);
    SplitWsSpace(c, d);
    SplitWsLeadingSpace(b);
    SplitWsToken(a);
    SplitWsToken(b);
    SplitWsToken(c);
    SplitWsToken(d);
  }

  /** The memory flag " -Xmx<mem>M" without its leading space is one word. */
  lemma MemFlagWord(mem: string)
    requires forall i :: 0 <= i < |mem| ==> IsDigit(mem[i])
    ensures IsWord("-Xmx" + mem + "M")
  {
    var f := "-Xmx" + mem + "M";
    forall i | 0 <= i < |f| ensures !IsSpace(f[i]) {
      if 4 <= i < 4 + |mem| {
        assert f[i] == mem[i - 4];
      }
    }
  }

  /** The tokens of the GATK name. */
  lemma GatkNameTokens(mem: string, tool: string)
    requires forall i :: 0 <= i < |mem| ==> IsDigit(mem[i])
    requires IsWord(tool)
    ensures SplitWs(GatkName(mem, tool)) == ["gatk", "-Xmx" + mem + "M", "-T", tool]
  {
    var flag := "-Xmx" + mem + "M";
    MemFlagWord(mem);
    assert GatkName(mem, tool) == "gatk" + " " + (" " + flag) + " " + "-T" + " " + tool;
    FourWords("gatk", flag, "-T", tool);
  }

  /** Where the tags occur in the GATK name: Xmx and -T do, bqsr does not. */
  lemma GatkNameTags(mem: string, tool: string)
    requires forall i :: 0 <= i < |mem| ==> IsDigit(mem[i])
    requires !Contains(tool, "bqsr")
    ensures Contains(GatkName(mem, tool), "Xmx")
    ensures Contains(GatkName(mem, tool), "-T")
    ensures !Contains(GatkName(mem, tool), "bqsr")
  {
    var name := GatkName(mem, tool);
    ContainsSelf("Xmx");
    ContainsConcat("gatk" + " " + " -", "Xmx", mem + "M" + " " + "-T" + " " + tool, "Xmx");
    assert "gatk" + " " + " -" + "Xmx" + (mem + "M" + " " + "-T" + " " + tool) == name;
    ContainsSelf("-T");
    ContainsConcat("gatk" + " " + (" -Xmx" + mem + "M") + " ", "-T", " " + tool, "-T");
    assert "gatk" + " " + (" -Xmx" + mem + "M") + " " + "-T" + (" " + tool) == name;
    var pre := "gatk" + " " + (" -Xmx" + mem + "M") + " " + "-T" + " ";
    assert name == pre + tool;
    assert 'b' !in mem;
    assert 'b' !in pre;
    ContainsSkip(pre, tool, "bqsr");
  }

  /** The first token holding `tag` is the second, when the first token starts with no character of it. */
  lemma SecondTokenTagged(toks: seq<string>, tag: string)
    requires |toks| >= 2 && |tag| > 0 && tag[0] !in toks[0] && Contains(toks[1], tag)
    ensures FirstContaining(toks, tag) == Some(1)
  {
    ContainsSkip(toks[0], "", tag);
    assert toks[0] + "" == toks[0];
    assert toks == [toks[0]] + toks[1..];
    FirstContainingAt([toks[0]], toks[1..], tag);
  }

  /** name_clean of four tokens whose second holds Xmx and third holds -T keeps the first and the last. */
  lemma NameCleanSecondThird(name: string, a: string, b: string, c: string, d: string)
    requires SplitWs(name) == [a, b, c, d]
    requires Contains(name, "Xmx") && 'X' !in a && Contains(b, "Xmx")
    requires Contains(name, "-T") && '-' !in a && Contains(c, "-T")
    requires !Contains(name, "bqsr")
    ensures NameClean(name) == Success(a + "_" + d)
  {
    SecondTokenTagged([a, b, c, d], "Xmx");
    assert RemoveAt([a, b, c, d], 1) == [a, c, d];
    SecondTokenTagged([a, c, d], "-T");
    assert RemoveAt([a, c, d], 1) == [a, d];
    NameCleanDrops(name, 1, 1);
    assert [a, d][1..] == [d];
  }

  /**
   * name_clean of the name the GATK wrapper builds, "gatk", " -Xmx<mem>M",
   * "-T" and the tool joined by spaces: the memory and "-T" tokens are
   * dropped, leaving "gatk_<tool>".
   */
  lemma NameCleanGatk(mem: string, tool: string)
    requires forall i :: 0 <= i < |mem| ==> IsDigit(mem[i])
    requires IsWord(tool)
    requires !Contains(tool, "bqsr")
    ensures NameClean(GatkName(mem, tool)) == Success("gatk" + "_" + tool)
  {
    var flag := "-Xmx" + mem + "M";
    GatkNameTokens(mem, tool);
    GatkNameTags(mem, tool);
    ContainsConcat("-", "Xmx", mem + "M", "Xmx");
    assert "-" + "Xmx" + (mem + "M") == flag;
    ContainsSelf("-T");
    NameCleanSecondThird(GatkName(mem, tool), "gatk", flag, "-T", tool);
  }

  /**
   * name_clean raises IndexError when the token holding Xmx also held the
   * "-T": once it is dropped no token holds "-T", yet the name does.
   */
  lemma NameCleanSharedToken(a: string, b: string)
    requires IsWord(a) && IsWord(b) && 'X' !in a && '-' !in a
    requires Contains(b, "Xmx") && Contains(b, "-T")
    ensures NameClean(a + " " + b).Failure?
  {
    var name := a + " " + b;
    SplitWsSpace(a, b);
    SplitWsToken(a);
    SplitWsToken(b);
    SecondTokenTagged([a, b], "Xmx");
    assert RemoveAt([a, b], 1) == [a];
    ContainsConcat(a + " ", b, "", "Xmx");
    ContainsConcat(a + " ", b, "", "-T");
    assert a + " " + b + "" == name;
    ContainsSkip(a, "", "-T");
    assert a + "" == a;
    assert FirstContaining([a], "-T") == None;
  }

  /** For instance, name_clean("java -Xmx-T") raises. */
  lemma NameCleanCanFail(a: string, b: string)
    requires a == "java" && b == "-Xmx-T"
    ensures NameClean(a + " " + b).Failure?
  {
    ContainsSelf("Xmx");
    ContainsSelf("-T");
    ContainsConcat("-", "Xmx", "-T", "Xmx");
    assert "-" + "Xmx" + "-T" == b;
    ContainsConcat("-Xmx", "-T", "", "-T");
    assert "-Xmx" + "-T" + "" == b;
    assert IsWord(a);
    assert IsWord(b);
    NameCleanSharedToken(a, b);
  }

  // ---------------------------------------------------------------------
  // The wrapper's fields
  // ---------------------------------------------------------------------

  /** The default luigi_local_path written into the wrapper. */
  const DefaultLocalPath: string := "/Users/aragaven/scratch/test_workflow"

  /** The working, log, alignment and QC directories. */
  datatype Dirs = Dirs(cwd: string, logDir: string, alignDir: string, qcDir: string)

  /** The checkpoint files: the luigi source marker, the target, and the local mirror. */
  datatype Checkpoint = Checkpoint(luigiSource: string, luigiTarget: string, localTarget: Val,
                                   luigiLocalTarget: Option<string>)

  /** Where stdout and stderr go, when given. */
  datatype Redirects = Redirects(stdout: Option<string>, stderr: Option<string>, stdoutAppend: Option<string>)

  /**
   * The fields `init` copies from kwargs and nothing after it rewrites,
   * except the redirects, which some wrappers set between two `init`s.
   */
  datatype Conf = Conf(
    condaCommand: Option<string>,
    pairedEnd: Val,
    maxConcurrency: int,
    jobParms: JobParms?,
    dirs: Dirs,
    ckpt: Checkpoint,
    redirects: Redirects)

  /**
   * Every field a wrapper holds, as one value. `target` and `addArgs` are
   * the class attributes of the Picard and GATK wrappers ('' and nothing).
   */
  datatype WState = WState(
    name: string,
    input: string,
    cmd: seq<string>,
    runCommand: Option<string>,
    args: seq<string>,
    conf: Conf,
    target: string,
    addArgs: seq<string>)

  /** The configuration of a wrapper object before `init`. */
  function BlankConf(): Conf {
    Conf(None, Flag(false), 1, null, Dirs("", "", "", ""), Checkpoint("", "", Flag(false), None),
      Redirects(None, None, None))
  }

  /** A wrapper object before `init`: only `input` is set. */
  function Blank(input: string): WState {
    WState("", input, [], None, [], BlankConf(), "", [])
  }

  /** The directories `init` reads from kwargs, defaulting under the process directory. */
  function InitDirs(kw: Kwargs, host: Host): Dirs {
    Dirs(kw.cwd.UnwrapOr(host.cwd),
         kw.logDir.UnwrapOr(PathJoin(host.cwd, "logs")),
         kw.alignDir.UnwrapOr(PathJoin(host.cwd, "align_dir")),
         kw.qcDir.UnwrapOr(PathJoin(host.cwd, "qc_dir")))
  }

  /**
   * The checkpoint files `init` sets: cwd/checkpoints/<target> and, only
   * when local targets are on, <luigi_local_path>/<target>; otherwise an
   * earlier local target survives.
   */
  function InitCheckpoint(prev: Checkpoint, cwd: string, kw: Kwargs): Checkpoint {
    var tgt := kw.target.UnwrapOr("None");
    var local := kw.localTargets.UnwrapOr(Flag(true));
    Checkpoint("Present", PathJoin3(cwd, "checkpoints", tgt), local,
      if Truthy(local) then Some(PathJoin(kw.luigiLocalPath.UnwrapOr(DefaultLocalPath), tgt))
      else prev.luigiLocalTarget)
  }

  /** Everything `init` reads from kwargs. */
  function InitConf(prev: Conf, kw: Kwargs, host: Host): Conf {
    var dirs := InitDirs(kw, host);
    Conf(kw.condaCommand, kw.pairedEnd.UnwrapOr(Flag(false)), kw.maxConcurrency.UnwrapOr(1), kw.jobParms,
      dirs, InitCheckpoint(prev.ckpt, dirs.cwd, kw), Redirects(kw.stdout, kw.stderr, kw.stdoutAppend))
  }

  /** `BaseWrapper.__init__`, also called again as `init` by the subclasses. */
  function InitState(s: WState, name: string, kw: Kwargs, host: Host): WState {
    s.(name := name, cmd := [name], runCommand := None, args := [], conf := InitConf(s.conf, kw, host))
  }

  /**
   * After `init` the command is the name alone and the argument list is
   * empty; input, target and add_args are kept; the checkpoint is
   * <cwd>/checkpoints/<target>; and re-running `init` with the same
   * arguments changes nothing.
   */
  lemma InitFacts(s: WState, name: string, kw: Kwargs, host: Host)
    ensures var r := InitState(s, name, kw, host);
      r.cmd == [name] && r.args == [] && r.runCommand == None &&
      r.input == s.input && r.target == s.target && r.addArgs == s.addArgs &&
      r.conf.ckpt.luigiTarget == PathJoin3(r.conf.dirs.cwd, "checkpoints", kw.target.UnwrapOr("None")) &&
      InitState(r, name, kw, host) == r
  {
  }

  /** A second `init` with the same kwargs leaves no trace of the first one but the kept fields. */
  lemma InitTwice(s: WState, n1: string, n2: string, kw: Kwargs, host: Host)
    ensures InitState(InitState(s, n1, kw, host), n2, kw, host) == InitState(s, n2, kw, host)
  {
  }

  /** A re-`init` with local targets off keeps the local target of the first `init`. */
  lemma InitKeepsLocalTarget(s: WState, name: string, kw: Kwargs, kw2: Kwargs, host: Host)
    requires kw.localTargets.None? && kw2.localTargets == Some(Flag(false))
    ensures var r := InitState(InitState(s, name, kw, host), name, kw2, host);
      r.conf.ckpt.luigiLocalTarget ==
        Some(PathJoin(kw.luigiLocalPath.UnwrapOr(DefaultLocalPath), kw.target.UnwrapOr("None")))
  {
  }

  /** The checkpoint path is cwd/checkpoints/<target> for a plain relative target. */
  lemma InitCheckpoints(s: WState, name: string, kw: Kwargs, host: Host, tgt: string)
    requires kw.target == Some(tgt) && !StartsWith(tgt, "/")
    requires kw.cwd.Some? && kw.cwd.value != "" && !EndsWith(kw.cwd.value, "/")
    ensures InitState(s, name, kw, host).conf.ckpt.luigiTarget == kw.cwd.value + "/checkpoints/" + tgt
  {
    var c := kw.cwd.value;
    PathJoinPlain(c, "checkpoints");
    var d := c + "/" + "checkpoints";
    assert d[|d| - 1] == 's';
    PathJoinPlain(d, tgt);
  }

  /** `add_threading(flag)`: the flag and the thread count, only for more than one thread. */
  function ThreadingArgs(s: WState, flag: string): (r: seq<string>)
    ensures s.conf.maxConcurrency <= 1 <==> r == []
    ensures r != [] ==> |r| == 2 && r[0] == flag && ParseInt(r[1]) == Some(s.conf.maxConcurrency)
  {
    var n := s.conf.maxConcurrency;
    if n > 1 then
      ParseIntToStr(n);
      [flag, IntToStr(n)]
    else []
  }

  /** `'_'.join([a, b, c])` */
  lemma Join3(sep: string, a: string, b: string, c: string)
    ensures Join(sep, [a, b, c]) == a + sep + b + sep + c
  {
    assert [a, b, c][1..] == [b, c];
    assert [b, c][1..] == [c];
    assert Join(sep, [b, c]) == b + sep + c;
    assert a + sep + (b + sep + c) == a + sep + b + sep + c;
  }

  /** The stderr log `setup_run` redirects to. */
  function StderrPath(s: WState): Result<string> {
    if |SplitWs(s.name)| > 1 then
      var nc :- NameClean(s.name);
      Success(PathJoin(s.conf.dirs.logDir, Join("_", [s.input, nc, "err.log"])))
    else if s.conf.redirects.stderr.Some? then Success(s.conf.redirects.stderr.value)
    else Success(PathJoin(s.conf.dirs.logDir, Join("_", [s.input, s.name, "err.log"])))
  }

  /** The stdout redirection `setup_run` appends after the stderr one. */
  function StdoutRedirect(r: Redirects, stderr: string, host: Host): string {
    if r.stdout.Some? && r.stdout.value != "" then "1>" + AbsPath(host, r.stdout.value)
    else if r.stdoutAppend.Some? && r.stdoutAppend.value != "" then "1>>" + AbsPath(host, r.stdoutAppend.value)
    else "1>>" + stderr
  }

  /** `setup_run(add_command)`: append the redirects, join the command line. */
  function SetupRunState(s: WState, addCommand: Option<string>, host: Host): (r: Result<WState>)
    ensures r.Success? ==> r.value.runCommand.Some?
  {
    var stderr :- StderrPath(s);
    var args := s.args + ["2>>" + stderr, StdoutRedirect(s.conf.redirects, stderr, host)];
    var line := Join(" ", s.cmd + args);
    Success(s.(args := args,
               runCommand := Some(if addCommand.Some? then line + "; " + addCommand.value else line)))
  }

  /** `setup_run` only appends to the arguments and sets the run command: every other field is kept. */
  lemma SetupRunKeeps(s: WState, addCommand: Option<string>, host: Host)
    requires SetupRunState(s, addCommand, host).Success?
    ensures var r := SetupRunState(s, addCommand, host).value;
      r.name == s.name && r.input == s.input && r.cmd == s.cmd && r.conf == s.conf &&
      r.target == s.target && r.addArgs == s.addArgs && |r.args| == |s.args| + 2 && r.args[..|s.args|] == s.args
  {
  }

  /**
   * The stderr rules: a one-word name logs to log_dir/<input>_<name>_err.log
   * unless an explicit stderr is given; a multi-word name always logs to
   * log_dir/<input>_<name_clean()>_err.log.
   */
  lemma StderrRules(s: WState)
    ensures |SplitWs(s.name)| <= 1 && s.conf.redirects.stderr.None? ==>
      StderrPath(s) == Success(PathJoin(s.conf.dirs.logDir, s.input + "_" + s.name + "_" + "err.log"))
    ensures |SplitWs(s.name)| <= 1 && s.conf.redirects.stderr.Some? ==>
      StderrPath(s) == Success(s.conf.redirects.stderr.value)
    ensures |SplitWs(s.name)| > 1 && NameClean(s.name).Success? ==>
      StderrPath(s) == Success(PathJoin(s.conf.dirs.logDir, s.input + "_" + NameClean(s.name).value + "_" + "err.log"))
    ensures StderrPath(s).Failure? <==> |SplitWs(s.name)| > 1 && NameClean(s.name).Failure?
  {
    if |SplitWs(s.name)| <= 1 {
      Join3("_", s.input, s.name, "err.log");
    } else if NameClean(s.name).Success? {
      var nc := NameClean(s.name).value;
      Join3("_", s.input, nc, "err.log");
      assert StderrPath(s) == Success(PathJoin(s.conf.dirs.logDir, Join("_", [s.input, nc, "err.log"])));
    }
  }

  /** `setup_run()` of a one-word name without an explicit stderr: the stderr log under log_dir, then stdout. */
  lemma SetupRunOneWord(s: WState, host: Host)
    requires |SplitWs(s.name)| <= 1 && s.conf.redirects.stderr.None?
    ensures var e := PathJoin(s.conf.dirs.logDir, s.input + "_" + s.name + "_" + "err.log");
      SetupRunState(s, None, host).Success? &&
      SetupRunState(s, None, host).value.runCommand == Some(Join(" ", s.cmd + (s.args + ["2>>" + e, StdoutRedirect(s.conf.redirects, e, host)])))
  {
    StderrRules(s);
  }

  /**
   * The stdout rules: a non-empty stdout truncates to its absolute path, else a non-empty
   * stdout_append appends to its absolute path, else stdout joins the stderr log.
   */
  lemma StdoutRules(r: Redirects, stderr: string, host: Host)
    ensures r.stdout.Some? && r.stdout.value != "" ==>
      StdoutRedirect(r, stderr, host) == "1>" + AbsPath(host, r.stdout.value)
    ensures (r.stdout.None? || r.stdout.value == "") && r.stdoutAppend.Some? && r.stdoutAppend.value != "" ==>
      StdoutRedirect(r, stderr, host) == "1>>" + AbsPath(host, r.stdoutAppend.value)
    ensures (r.stdout.None? || r.stdout.value == "") && (r.stdoutAppend.None? || r.stdoutAppend.value == "") ==>
      StdoutRedirect(r, stderr, host) == "1>>" + stderr
  {
  }

  /**
   * The run command is the command and its arguments, then the stderr
   * redirect, then the stdout redirect, then "; " and the extra command.
   */
  lemma RunCommandShape(s: WState, addCommand: Option<string>, host: Host)
    requires |s.cmd| > 0 && StderrPath(s).Success?
    ensures var stderr := StderrPath(s).value;
      var line := Join(" ", s.cmd + s.args) + " " + "2>>" + stderr + " " + StdoutRedirect(s.conf.redirects, stderr, host);
      SetupRunState(s, addCommand, host).Success? &&
      SetupRunState(s, addCommand, host).value.runCommand ==
        Some(if addCommand.Some? then line + "; " + addCommand.value else line)
  {
    var stderr := StderrPath(s).value;
    var a := "2>>" + stderr;
    var b := StdoutRedirect(s.conf.redirects, stderr, host);
    var j := Join(" ", s.cmd + s.args);
    JoinAppend(" ", s.cmd + s.args, a);
    JoinAppend(" ", s.cmd + s.args + [a], b);
    assert s.cmd + (s.args + [a, b]) == s.cmd + s.args + [a] + [b];
    assert Join(" ", s.cmd + (s.args + [a, b])) == j + " " + a + " " + b;
    assert j + " " + a + " " + b == j + " " + "2>>" + stderr + " " + b;
  }

  // ---------------------------------------------------------------------
  // The wrapper object
  // ---------------------------------------------------------------------

  class Wrapper {
    var name: string
    var input: string
    var cmd: seq<string>
    var runCommand: Option<string>
    var args: seq<string>
    var conf: Conf
    var target: string
    var addArgs: seq<string>

    /** The object's fields as one value. */
    function State(): WState
      reads this
    {
      WState(name, input, cmd, runCommand, args, conf, target, addArgs)
    }

    /** The subclass constructor's `self.input = input` on a new object. */
    constructor (input: string)
      ensures State() == Blank(input)
    {
      name, this.input, cmd, runCommand := "", input, [], None;
      args, conf, target, addArgs := [], BlankConf(), "", [];
    }

    /** `init(name, **kwargs)` */
    method Init(n: string, kw: Kwargs, host: Host)
      modifies this
      ensures State() == InitState(old(State()), n, kw, host)
    {
      name := n;
      cmd := [];
      runCommand := None;
      args := [];
      conf := InitConf(conf, kw, host);
      SetupCommand();
    }

    /**
     * `setup_command`: with no command given, the command is the program
     * name; a command given as text is split into its words.
     */
    method SetupCommand()
      modifies this
      ensures State() == old(State()).(cmd := if old(cmd) == [] then [name] else SplitWs(Join(" ", old(cmd))))
    {
      if cmd == [] {
        cmd := [name];
      } else {
        cmd := SplitWs(Join(" ", cmd));
      }
    }

    /** `add_threading(flag)` */
    method AddThreading(flag: string)
      modifies this
      ensures State() == old(State()).(args := old(args) + ThreadingArgs(old(State()), flag))
    {
      var threads := conf.maxConcurrency;
      if threads > 1 {
        args := args + [flag, IntToStr(threads)];
      }
    }

    /** `self.args += xs` */
    method AppendArgs(xs: seq<string>)
      modifies this
      ensures State() == old(State()).(args := old(args) + xs)
    {
      args := args + xs;
    }

    /** `self.name = self.name + suffix`, after the command line is built. */
    method Rename(suffix: string)
      modifies this
      ensures State() == old(State()).(name := old(name) + suffix)
    {
      name := name + suffix;
    }

    /** `self.run_command = first + "; " + self.run_command` */
    method ChainAfter(first: string)
      modifies this
      requires runCommand.Some?
      ensures State() == old(State()).(runCommand := Some(first + "; " + old(runCommand).value))
    {
      runCommand := Some(first + "; " + runCommand.value);
    }

    /** `setup_run(add_command)` */
    method SetupRun(addCommand: Option<string>, host: Host) returns (r: Result<()>)
      modifies this
      ensures r.Success? <==> SetupRunState(old(State()), addCommand, host).Success?
      ensures r.Failure? ==> SetupRunState(old(State()), addCommand, host) == Failure(r.error)
      ensures r.Success? ==> State() == SetupRunState(old(State()), addCommand, host).value
      ensures r.Failure? ==> State() == old(State())
    {
      var err := StderrPath(State());
      if err.Failure? {
        return Failure(err.error);
      }
      var stderrPath := err.value;
      var rd := conf.redirects;
      var redirect: string;
      if rd.stdout.Some? && rd.stdout.value != "" {
        redirect := "1>" + AbsPath(host, rd.stdout.value);
      } else if rd.stdoutAppend.Some? && rd.stdoutAppend.value != "" {
        redirect := "1>>" + AbsPath(host, rd.stdoutAppend.value);
      } else {
        redirect := "1>>" + stderrPath;
      }
      args := args + ["2>>" + stderrPath, redirect];
      var line := Join(" ", cmd + args);
      if addCommand.Some? {
        line := line + "; " + addCommand.value;
      }
      runCommand := Some(line);
      return Success(());
    }
  }
}
