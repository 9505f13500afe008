// The pure helpers of bioflowsutils.utils: name sanitising, memory strings,
// number ranges, natural ("alphanumeric") sorting, column tables,
// re-indentation, Newick trees, paths and optional text.
module Utils {
  import opened Wrappers
  import opened PyStr
  import opened Params

  // ---------------------------------------------------------------------
  // safe_str and safe_taxon
  // ---------------------------------------------------------------------

  /** The characters `safe_str` keeps: ASCII letters and digits and ()[]{}|:.-_ */
  predicate SafeChar(c: char) {
    IsAlnum(c) || c in "()[]{}|:.-_"
  }

  /** The characters `safe_taxon` keeps: ASCII letters and digits and '_'. */
  predicate TaxonChar(c: char) {
    IsAlnum(c) || c == '_'
  }

  /** Every character of `s` that `keep` rejects becomes '_'. */
  function Sanitize(s: string, keep: char -> bool): (r: string)
    ensures |r| == |s|
    ensures forall k :: 0 <= k < |s| ==> r[k] == if keep(s[k]) then s[k] else '_'
    decreases |s|
  {
    if s == [] then "" else [if keep(s[0]) then s[0] else '_'] + Sanitize(s[1..], keep)
  }

  /** `safe_str(s)` */
  function SafeStr(s: string): string {
    Sanitize(s, SafeChar)
  }

  /** `safe_taxon(s)` */
  function SafeTaxon(s: string): string {
    Sanitize(s, TaxonChar)
  }

  /**
   * When '_' is kept, a sanitised string keeps only allowed characters, a
   * second pass changes nothing, and a string is its own sanitised form
   * exactly when every character is allowed.
   */
  lemma SanitizeFacts(s: string, keep: char -> bool)
    requires keep('_')
    ensures var r := Sanitize(s, keep); forall k :: 0 <= k < |r| ==> keep(r[k])
    ensures Sanitize(Sanitize(s, keep), keep) == Sanitize(s, keep)
    ensures Sanitize(s, keep) == s <==> forall k :: 0 <= k < |s| ==> keep(s[k])
  {
    var r := Sanitize(s, keep);
    if Sanitize(s, keep) == s {
      forall k | 0 <= k < |s| ensures keep(s[k]) {
        assert r[k] == s[k];
      }
    }
  }

  /** `safe_str` keeps the length, leaves only safe characters, and is idempotent. */
  lemma SafeStrFacts(s: string)
    ensures |SafeStr(s)| == |s|
    ensures forall k :: 0 <= k < |s| ==> SafeChar(SafeStr(s)[k])
    ensures forall k :: 0 <= k < |s| && SafeChar(s[k]) ==> SafeStr(s)[k] == s[k]
    ensures SafeStr(SafeStr(s)) == SafeStr(s)
    ensures SafeStr(s) == s <==> forall k :: 0 <= k < |s| ==> SafeChar(s[k])
  {
    SanitizeFacts(s, SafeChar);
  }

  /** `safe_taxon` keeps the length, leaves only taxon characters, is idempotent, and its output is already safe for `safe_str`. */
  lemma SafeTaxonFacts(s: string)
    ensures |SafeTaxon(s)| == |s|
    ensures forall k :: 0 <= k < |s| ==> TaxonChar(SafeTaxon(s)[k])
    ensures forall k :: 0 <= k < |s| && TaxonChar(s[k]) ==> SafeTaxon(s)[k] == s[k]
    ensures SafeTaxon(SafeTaxon(s)) == SafeTaxon(s)
    ensures SafeTaxon(s) == s <==> forall k :: 0 <= k < |s| ==> TaxonChar(s[k])
    ensures SafeStr(SafeTaxon(s)) == SafeTaxon(s)
  {
    SanitizeFacts(s, TaxonChar);
    var t := SafeTaxon(s);
    SanitizeFacts(t, SafeChar);
    assert forall k :: 0 <= k < |t| ==> SafeChar(t[k]);
  }

  // ---------------------------------------------------------------------
  // mem_to_mb
  // ---------------------------------------------------------------------

  /**
   * The unit `mem_to_mb` recognises at the end of a memory string (its
   * factor and its length), tested in the source's order: G or g, then
   * gb, Gb or GB, then m or M, then mb, Mb or MB.
   */
  function MemUnit(mem: string): Option<(int, nat)> {
    if |mem| == 0 then None
    else
      var c := mem[|mem| - 1];
      var b := if |mem| >= 2 then Some(mem[|mem| - 2]) else None;
      if c == 'G' || c == 'g' then Some((1024, 1))
      else if (c == 'b' && (b == Some('g') || b == Some('G'))) || (c == 'B' && b == Some('G')) then Some((1024, 2))
      else if c == 'm' || c == 'M' then Some((1, 1))
      else if (c == 'b' && (b == Some('m') || b == Some('M'))) || (c == 'B' && b == Some('M')) then Some((1, 2))
      else None
  }

  /** The character tests of `MemUnit` are the source's `endswith` tests. */
  lemma MemUnitEndsWith(mem: string)
    ensures MemUnit(mem) ==
      if EndsWith(mem, "G") || EndsWith(mem, "g") then Some((1024, 1))
      else if EndsWith(mem, "gb") || EndsWith(mem, "Gb") || EndsWith(mem, "GB") then Some((1024, 2))
      else if EndsWith(mem, "m") || EndsWith(mem, "M") then Some((1, 1))
      else if EndsWith(mem, "mb") || EndsWith(mem, "Mb") || EndsWith(mem, "MB") then Some((1, 2))
      else None
  {
    if |mem| >= 2 {
      assert mem[|mem| - 2..] == [mem[|mem| - 2], mem[|mem| - 1]];
    }
    if |mem| >= 1 {
      assert mem[|mem| - 1..] == [mem[|mem| - 1]];
    }
  }

  /**
   * `mem_to_mb(mem)`: the integer before the unit, times 1024 for
   * gigabytes; an unknown unit or a prefix `int()` rejects aborts.
   */
  function MemToMb(mem: string): (r: Result<int>)
    ensures MemUnit(mem).None? ==> r == Failure("unrecognized memory value '" + mem + "'")
    ensures MemUnit(mem).Some? ==>
      var (factor, n) := MemUnit(mem).value;
      n <= |mem| &&
      (r.Success? <==> ParseInt(mem[..|mem| - n]).Some?) &&
      (r.Success? ==> r.value == ParseInt(mem[..|mem| - n]).value * factor) &&
      (r.Failure? ==> r.error == "can't convert memory value '" + mem[..|mem| - n] + "' to an integer")
  {
    match MemUnit(mem)
    case None => Failure("unrecognized memory value '" + mem + "'")
    case Some((factor, n)) =>
      var prefix := mem[..|mem| - n];
      match ParseInt(prefix)
      case None => Failure("can't convert memory value '" + prefix + "' to an integer")
      case Some(v) => Success(v * factor)
  }

  /** A recognised unit after an integer `int()` accepts gives that integer times the unit's factor. */
  lemma MemParsed(s: string, d: string, factor: int, k: nat, v: int)
    requires MemUnit(s) == Some((factor, k)) && k <= |s| && s[..|s| - k] == d && ParseInt(d) == Some(v)
    ensures MemToMb(s) == Success(v * factor)
  {
  }

  /** Gigabytes and megabytes with a one-character unit after the printed number. */
  lemma MemUnitOne(n: int, u: char)
    requires u in "GgMm"
    ensures MemToMb(IntToStr(n) + [u]) == Success(if u == 'G' || u == 'g' then n * 1024 else n)
  {
    var d := IntToStr(n);
    var s := d + [u];
    ParseIntToStr(n);
    assert s[..|s| - 1] == d;
    assert s[|s| - 1] == u;
    MemParsed(s, d, if u == 'G' || u == 'g' then 1024 else 1, 1, n);
  }

  /** A two-character unit at the end of a memory string. */
  lemma MemUnitLastTwo(s: string, g: char, b: char)
    requires |s| >= 2 && s[|s| - 2] == g && s[|s| - 1] == b
    requires (g in "gGmM" && b == 'b') || (g in "GM" && b == 'B')
    ensures MemUnit(s) == Some((if g == 'G' || g == 'g' then 1024 else 1, 2))
  {
    assert g == 'g' || g == 'G' || g == 'm' || g == 'M';
  }

  /** Gigabytes and megabytes with a two-character unit after the printed number. */
  lemma MemUnitTwo(n: int, g: char, b: char)
    requires (g in "gGmM" && b == 'b') || (g in "GM" && b == 'B')
    ensures MemToMb(IntToStr(n) + [g, b]) == Success(if g == 'G' || g == 'g' then n * 1024 else n)
  {
    var d := IntToStr(n);
    var s := d + [g, b];
    ParseIntToStr(n);
    assert s[..|s| - 2] == d;
    assert s[|s| - 1] == b && s[|s| - 2] == g;
    var factor := if g == 'G' || g == 'g' then 1024 else 1;
    MemUnitLastTwo(s, g, b);
    MemParsed(s, d, factor, 2, n);
  }

  /** The printed form of an integer ends in a digit. */
  lemma IntToStrLastDigit(n: int)
    ensures var s := IntToStr(n); |s| > 0 && IsDigit(s[|s| - 1])
  {
    var d := NatToStr(if n < 0 then -n else n);
    if n < 0 {
      var s := "-" + d;
      assert s[|s| - 1] == d[|d| - 1];
    }
  }

  /** A bare number has no unit and aborts, and so does a unit with no number. */
  lemma MemNoUnit(n: int)
    ensures MemToMb(IntToStr(n)).Failure?
    ensures MemToMb("G").Failure?
  {
    IntToStrLastDigit(n);
    assert "G"[..0] == "";
  }

  // ---------------------------------------------------------------------
  // basename and none_to_empty
  // ---------------------------------------------------------------------

  /** `basename(path)`: the last path component without its last extension. */
  function Basename(path: string): (r: string)
    ensures '/' !in r
    ensures var b := BaseName(path); |r| <= |b| && r == b[..|r|]
  {
    var b := BaseName(path);
    var (root, ext) := SplitExt(b);
    assert root == b[..|root|];
    root
  }

  /** The last '/' of `dir + b` ends `dir` when `b` has none. */
  lemma AfterSlashAt(dir: string, b: string)
    requires dir == "" || dir[|dir| - 1] == '/'
    requires '/' !in b
    ensures AfterLastSlash(dir + b) == |dir|
  {
    var p := dir + b;
    assert dir != "" ==> p[|dir| - 1] == '/';
    assert forall k :: |dir| <= k < |p| ==> p[k] == b[k - |dir|];
  }

  /** The last dot of `stem + "." + ext` is the one between them when `ext` has none. */
  lemma LastDotAt(stem: string, ext: string)
    requires '.' !in ext
    ensures LastDot(stem + "." + ext) == Some(|stem|)
  {
    var b := stem + "." + ext;
    assert b[|stem|] == '.';
    assert forall k :: |stem| < k < |b| ==> b[k] == ext[k - |stem| - 1];
  }

  /** `stem + "." + ext` has no '/' when neither part has one. */
  lemma NoSlash(stem: string, ext: string)
    requires '/' !in stem && '/' !in ext
    ensures '/' !in stem + "." + ext
  {
    var b := stem + "." + ext;
    assert forall k :: 0 <= k < |stem| ==> b[k] == stem[k];
    assert forall k :: |stem| < k < |b| ==> b[k] == ext[k - |stem| - 1];
  }

  /** The root `splitext` gives for a dot-free stem. */
  lemma SplitExtAt(stem: string, ext: string)
    requires stem != "" && '/' !in stem && '.' !in stem && '/' !in ext && '.' !in ext
    ensures SplitExt(stem + "." + ext).0 == stem
  {
    var b := stem + "." + ext;
    NoSlash(stem, ext);
    AfterSlashAt("", b);
    assert "" + b == b;
    LastDotAt(stem, ext);
    assert b[0] == stem[0];
    assert HasNonDot(b, 0, |stem|);
    assert b[..|stem|] == stem;
  }

  /** A stem with no dot, under any directory, with a dot-free extension. */
  lemma BasenameStem(dir: string, stem: string, ext: string)
    requires dir == "" || dir[|dir| - 1] == '/'
    requires stem != "" && '/' !in stem && '.' !in stem && '/' !in ext && '.' !in ext
    ensures Basename(dir + stem + "." + ext) == stem
  {
    var b := stem + "." + ext;
    var p := dir + stem + "." + ext;
    assert p == dir + b;
    NoSlash(stem, ext);
    AfterSlashAt(dir, b);
    assert p[|dir|..] == b;
    assert BaseName(p) == b;
    SplitExtAt(stem, ext);
  }

  /** `none_to_empty(text)` */
  function NoneToEmpty(text: Option<string>): (r: string)
    ensures text.None? ==> r == ""
    ensures text.Some? ==> r == text.value
  {
    match text
    case None => ""
    case Some(t) => t
  }

  // ---------------------------------------------------------------------
  // indent
  // ---------------------------------------------------------------------

  /** `s * n` */
  function Repeat(s: string, n: int): (r: string)
    ensures forall k :: 0 <= k < |r| ==> r[k] in CharSet(s)
    decreases n
  {
    if n <= 0 then ""
    else
      var r := s + Repeat(s, n - 1);
      assert forall k :: 0 <= k < |s| ==> s[k] in CharSet(s);
      r
  }

  /** Each line with its leading `space` characters replaced by `tab`. */
  function Reindented(lines: seq<string>, tab: string, cs: set<char>): (r: seq<string>)
    ensures |r| == |lines|
  {
    seq(|lines|, i requires 0 <= i < |lines| => tab + LStrip(lines[i], cs))
  }

  /** `indent(n, text, space)` */
  function Indent(n: int, text: string, space: string): string {
    Join("\n", Reindented(Split(text, '\n'), Repeat(space, n), CharSet(space)))
  }

  /**
   * When `space` holds no newline, `indent` keeps the number of lines and
   * each line is n copies of `space` followed by the line without its
   * leading `space` characters.
   */
  lemma IndentLines(n: int, text: string, space: string)
    requires '\n' !in space
    ensures var out := Split(Indent(n, text, space), '\n');
      var lines := Split(text, '\n');
      |out| == |lines| &&
      forall i :: 0 <= i < |lines| ==> out[i] == Repeat(space, n) + LStrip(lines[i], CharSet(space))
  {
    var lines := Split(text, '\n');
    var tab := Repeat(space, n);
    var cs := CharSet(space);
    var parts := Reindented(lines, tab, cs);
    SplitFields(text, '\n');
    forall k | 0 <= k < |parts| ensures '\n' !in parts[k] {
      var l := LStrip(lines[k], cs);
      assert parts[k] == tab + l;
      assert '\n' !in cs;
      assert forall j :: 0 <= j < |tab| ==> tab[j] in cs;
      assert forall j :: 0 <= j < |l| ==> l[j] == lines[k][|lines[k]| - |l| + j];
    }
    SplitJoin(parts, '\n');
  }

  /** Re-indenting an indented text is the same as indenting the original: only the last indentation counts. */
  lemma IndentReindent(m: int, n: int, text: string, space: string)
    requires '\n' !in space
    ensures Indent(m, Indent(n, text, space), space) == Indent(m, text, space)
  {
    IndentLines(n, text, space);
    var cs := CharSet(space);
    var lines := Split(text, '\n');
    var mid := Split(Indent(n, text, space), '\n');
    forall i | 0 <= i < |lines| ensures LStrip(mid[i], cs) == LStrip(lines[i], cs) {
      LStripPrefix(Repeat(space, n), LStrip(lines[i], cs), cs);
    }
    assert Reindented(mid, Repeat(space, m), cs) == Reindented(lines, Repeat(space, m), cs);
  }

  // ---------------------------------------------------------------------
  // number_range
  // ---------------------------------------------------------------------

  predicate SortedInts(s: seq<int>) {
    forall i, j :: 0 <= i < j < |s| ==> s[i] <= s[j]
  }

  /** `x` placed into a sorted list. */
  function InsertInt(x: int, s: seq<int>): (r: seq<int>)
    requires SortedInts(s)
    ensures SortedInts(r) && multiset(r) == multiset(s) + multiset{x}
    ensures |r| == |s| + 1 && r[0] == if s == [] || x <= s[0] then x else s[0]
  {
    if s == [] || x <= s[0] then [x] + s
    else
      var t := InsertInt(x, s[1..]);
      assert s == [s[0]] + s[1..];
      assert s[0] <= t[0];
      [s[0]] + t
  }

  /** `sorted(numbers)` */
  function SortInts(s: seq<int>): (r: seq<int>)
    ensures SortedInts(r) && multiset(r) == multiset(s)
  {
    if s == [] then []
    else
      assert s == [s[0]] + s[1..];
      InsertInt(s[0], SortInts(s[1..]))
  }

  /** A run of consecutive integers: `start`, `start + 1`, ..., `count` of them. */
  datatype Run = Run(start: int, count: nat)

  /**
   * One step of `groupby(enumerate(xs), lambda x: x[1] - x[0])`: the next
   * element joins the current group when its value minus its index equals
   * the group's key, that is when it is one more than the element before.
   */
  function Extend(g: seq<Run>, x: int): (r: seq<Run>)
    ensures |r| > 0 && r[|r| - 1].start + r[|r| - 1].count - 1 == x
  {
    if |g| > 0 && g[|g| - 1].start + g[|g| - 1].count == x then
      g[..|g| - 1] + [Run(g[|g| - 1].start, g[|g| - 1].count + 1)]
    else g + [Run(x, 1)]
  }

  /** The groups of `xs`, in order. */
  function Groups(xs: seq<int>): (r: seq<Run>)
    ensures xs == [] <==> r == []
    ensures xs != [] ==> r[|r| - 1].start + r[|r| - 1].count - 1 == xs[|xs| - 1]
    decreases |xs|
  {
    if xs == [] then [] else Extend(Groups(xs[..|xs| - 1]), xs[|xs| - 1])
  }

  /** The values of a run. */
  function RunValues(r: Run): (v: seq<int>)
    ensures |v| == r.count
    ensures forall k :: 0 <= k < r.count ==> v[k] == r.start + k
    decreases r.count
  {
    if r.count == 0 then [] else RunValues(Run(r.start, r.count - 1)) + [r.start + r.count - 1]
  }

  /** The values of the runs, in order. */
  function Expand(g: seq<Run>): seq<int>
    decreases |g|
  {
    if g == [] then [] else Expand(g[..|g| - 1]) + RunValues(g[|g| - 1])
  }

  /** A step adds its element to the values the runs spell out. */
  lemma ExtendExpand(g: seq<Run>, x: int)
    ensures Expand(Extend(g, x)) == Expand(g) + [x]
  {
    var r := Extend(g, x);
    assert r[..|r| - 1] == (if |g| > 0 && g[|g| - 1].start + g[|g| - 1].count == x then g[..|g| - 1] else g);
    if |g| > 0 && g[|g| - 1].start + g[|g| - 1].count == x {
      var last := g[|g| - 1];
      assert Expand(g) == Expand(g[..|g| - 1]) + RunValues(last);
      assert RunValues(Run(last.start, last.count + 1)) == RunValues(last) + [x];
    } else {
      assert RunValues(Run(x, 1)) == [x];
    }
  }

  /** The runs spell out the list they were taken from. */
  lemma {:induction false} GroupsExpand(xs: seq<int>)
    ensures Expand(Groups(xs)) == xs
    decreases |xs|
  {
    if xs != [] {
      var pre, x := xs[..|xs| - 1], xs[|xs| - 1];
      assert Groups(xs) == Extend(Groups(pre), x);
      GroupsExpand(pre);
      ExtendExpand(Groups(pre), x);
      assert pre + [x] == xs;
    }
  }

  /** Runs are non-empty and maximal: the next run never starts right after the previous one ends. */
  predicate MaximalRuns(g: seq<Run>) {
    (forall i :: 0 <= i < |g| ==> g[i].count >= 1) &&
    forall i :: 0 <= i < |g| - 1 ==> g[i + 1].start != g[i].start + g[i].count
  }

  /** Runs that ascend, leaving `gap` values between them (0 allows a repeat of the last value). */
  predicate AscendingRuns(g: seq<Run>, gap: int) {
    forall i :: 0 <= i < |g| - 1 ==> g[i + 1].start >= g[i].start + g[i].count - 1 + gap
  }

  lemma ExtendMaximal(g: seq<Run>, x: int)
    requires MaximalRuns(g)
    ensures MaximalRuns(Extend(g, x))
  {
  }

  lemma ExtendAscending(g: seq<Run>, x: int, gap: int)
    requires AscendingRuns(g, gap) && 0 <= gap <= 1
    requires |g| > 0 ==> x >= g[|g| - 1].start + g[|g| - 1].count - 1 + gap
    ensures AscendingRuns(Extend(g, x), gap)
  {
  }

  /** Runs are maximal; on a sorted list they ascend, and on a sorted list without repeats they leave gaps. */
  lemma {:induction false} GroupsShape(xs: seq<int>, gap: int)
    requires 0 <= gap <= 1
    requires forall i :: 0 <= i < |xs| - 1 ==> xs[i + 1] >= xs[i] + gap
    ensures MaximalRuns(Groups(xs)) && AscendingRuns(Groups(xs), gap)
    decreases |xs|
  {
    if xs != [] {
      var pre := xs[..|xs| - 1];
      var x := xs[|xs| - 1];
      assert forall i :: 0 <= i < |pre| ==> pre[i] == xs[i];
      GroupsShape(pre, gap);
      var g := Groups(pre);
      assert Groups(xs) == Extend(g, x);
      ExtendMaximal(g, x);
      if pre != [] {
        assert x >= pre[|pre| - 1] + gap;
        ExtendAscending(g, x, gap);
      }
    }
  }

  /** One range string: "a" for a run of one, else "a-b". */
  function RangeStr(r: Run): string {
    if r.count == 1 then IntToStr(r.start) else IntToStr(r.start) + "-" + IntToStr(r.start + r.count - 1)
  }

  /** `number_range(numbers)` */
  function NumberRange(numbers: seq<int>): (r: seq<string>)
    ensures |r| == |Groups(SortInts(numbers))|
  {
    var g := Groups(SortInts(numbers));
    seq(|g|, i requires 0 <= i < |g| => RangeStr(g[i]))
  }

  /**
   * The ranges are those of the maximal runs of the sorted input: read
   * back in order they give every input value with its multiplicity, each
   * range string names its run's first and last value, and for an input
   * without repeats the ranges ascend with gaps between them.
   */
  lemma NumberRangeRuns(numbers: seq<int>)
    ensures var g := Groups(SortInts(numbers));
      |NumberRange(numbers)| == |g| &&
      (forall i :: 0 <= i < |g| ==> NumberRange(numbers)[i] == RangeStr(g[i])) &&
      multiset(Expand(g)) == multiset(numbers) && SortedInts(Expand(g)) &&
      MaximalRuns(g) && AscendingRuns(g, 0)
    ensures (forall i, j :: 0 <= i < j < |numbers| ==> numbers[i] != numbers[j]) ==>
      AscendingRuns(Groups(SortInts(numbers)), 1)
  {
    var s := SortInts(numbers);
    GroupsExpand(s);
    GroupsShape(s, 0);
    if forall i, j :: 0 <= i < j < |numbers| ==> numbers[i] != numbers[j] {
      DistinctSorted(numbers, s);
      GroupsShape(s, 1);
    }
  }

  /** Sorting keeps a list free of repeats, so its neighbours differ by at least one. */
  lemma DistinctSorted(xs: seq<int>, s: seq<int>)
    requires multiset(s) == multiset(xs) && SortedInts(s)
    requires forall i, j :: 0 <= i < j < |xs| ==> xs[i] != xs[j]
    ensures forall i :: 0 <= i < |s| - 1 ==> s[i + 1] >= s[i] + 1
  {
    forall i | 0 <= i < |s| - 1 ensures s[i + 1] >= s[i] + 1 {
      if s[i] == s[i + 1] {
        var v := s[i];
        assert multiset(s)[v] >= 2 by {
          assert s == s[..i] + [v, v] + s[i + 2..];
        }
        DistinctCount(xs, v);
      }
    }
  }

  /** In a list without repeats a value occurs at most once. */
  lemma {:induction false} DistinctCount(xs: seq<int>, v: int)
    requires forall i, j :: 0 <= i < j < |xs| ==> xs[i] != xs[j]
    ensures multiset(xs)[v] <= 1
    decreases |xs|
  {
    if xs != [] {
      assert xs == [xs[0]] + xs[1..];
      DistinctCount(xs[1..], v);
      if xs[0] == v {
        assert v !in xs[1..];
      }
    }
  }

  // ---------------------------------------------------------------------
  // sorted_alphanum
  // ---------------------------------------------------------------------

  /** One piece of a sort key: the text between digit runs, or a digit run read as an integer. */
  datatype Chunk = Txt(t: string) | Nbr(n: nat)

  /** The length of the digit-free prefix of `s`. */
  function TextLen(s: string): (n: nat)
    ensures n <= |s| && (n < |s| ==> IsDigit(s[n]))
    ensures forall k :: 0 <= k < n ==> !IsDigit(s[k])
    decreases |s|
  {
    if s == [] || IsDigit(s[0]) then 0 else 1 + TextLen(s[1..])
  }

  /** The length of the digit prefix of `s`. */
  function DigitLen(s: string): (n: nat)
    ensures n <= |s| && (n < |s| ==> !IsDigit(s[n]))
    ensures forall k :: 0 <= k < n ==> IsDigit(s[k])
    decreases |s|
  {
    if s == [] || !IsDigit(s[0]) then 0 else 1 + DigitLen(s[1..])
  }

  /**
   * `[convert(c) for c in re.split('([0-9]+)', key)]`: text and digit runs
   * alternate, starting and ending with a (possibly empty) text, and every
   * digit run is read as an integer.
   */
  function AlphaKey(s: string): (r: seq<Chunk>)
    ensures |r| > 0 && r[0].Txt? && r[|r| - 1].Txt?
    decreases |s|
  {
    var t := TextLen(s);
    if t == |s| then [Txt(s)]
    else
      var rest := s[t..];
      var d := DigitLen(rest);
      [Txt(s[..t]), Nbr(DigitsValue(rest[..d]))] + AlphaKey(rest[d..])
  }

  /** Python 2's ordering of strings: by character codes, a proper prefix first. */
  predicate StrLt(a: string, b: string)
    decreases |a|
  {
    if a == [] then b != []
    else if b == [] then false
    else if a[0] == b[0] then StrLt(a[1..], b[1..])
    else a[0] < b[0]
  }

  /** Python 2's ordering of key pieces: integers before strings. */
  predicate ChunkLt(a: Chunk, b: Chunk) {
    match (a, b)
    case (Nbr(m), Nbr(n)) => m < n
    case (Nbr(_), Txt(_)) => true
    case (Txt(_), Nbr(_)) => false
    case (Txt(x), Txt(y)) => StrLt(x, y)
  }

  /** Python's ordering of lists: the first differing piece decides, a proper prefix first. */
  predicate KeyLt(a: seq<Chunk>, b: seq<Chunk>)
    decreases |a|
  {
    if a == [] then b != []
    else if b == [] then false
    else if a[0] == b[0] then KeyLt(a[1..], b[1..])
    else ChunkLt(a[0], b[0])
  }

  lemma {:induction false} StrLtIrreflexive(a: string)
    ensures !StrLt(a, a)
    decreases |a|
  {
    if a != [] {
      StrLtIrreflexive(a[1..]);
    }
  }

  lemma {:induction false} StrLtTotal(a: string, b: string)
    requires a != b
    ensures StrLt(a, b) || StrLt(b, a)
    decreases |a|
  {
    if a != [] && b != [] && a[0] == b[0] {
      assert a == [a[0]] + a[1..] && b == [b[0]] + b[1..];
      StrLtTotal(a[1..], b[1..]);
    }
  }

  lemma {:induction false} StrLtTransitive(a: string, b: string, c: string)
    requires StrLt(a, b) && StrLt(b, c)
    ensures StrLt(a, c)
    decreases |a|
  {
    if a != [] && a[0] == b[0] && b[0] == c[0] {
      StrLtTransitive(a[1..], b[1..], c[1..]);
    }
  }

  lemma ChunkLtIrreflexive(a: Chunk)
    ensures !ChunkLt(a, a)
  {
    if a.Txt? {
      StrLtIrreflexive(a.t);
    }
  }

  lemma ChunkLtTotal(a: Chunk, b: Chunk)
    requires a != b
    ensures ChunkLt(a, b) || ChunkLt(b, a)
  {
    if a.Txt? && b.Txt? {
      StrLtTotal(a.t, b.t);
    }
  }

  lemma ChunkLtTransitive(a: Chunk, b: Chunk, c: Chunk)
    requires ChunkLt(a, b) && ChunkLt(b, c)
    ensures ChunkLt(a, c)
  {
    if a.Txt? && b.Txt? && c.Txt? {
      StrLtTransitive(a.t, b.t, c.t);
    }
  }

  lemma {:induction false} KeyLtIrreflexive(a: seq<Chunk>)
    ensures !KeyLt(a, a)
    decreases |a|
  {
    if a != [] {
      KeyLtIrreflexive(a[1..]);
    }
  }

  lemma {:induction false} KeyLtTotal(a: seq<Chunk>, b: seq<Chunk>)
    requires a != b
    ensures KeyLt(a, b) || KeyLt(b, a)
    decreases |a|
  {
    if a != [] && b != [] {
      if a[0] == b[0] {
        assert a == [a[0]] + a[1..] && b == [b[0]] + b[1..];
        KeyLtTotal(a[1..], b[1..]);
      } else {
        ChunkLtTotal(a[0], b[0]);
      }
    }
  }

  lemma {:induction false} KeyLtTransitive(a: seq<Chunk>, b: seq<Chunk>, c: seq<Chunk>)
    requires KeyLt(a, b) && KeyLt(b, c)
    ensures KeyLt(a, c)
    decreases |a|
  {
    if a != [] {
      if a[0] == b[0] && b[0] == c[0] {
        KeyLtTransitive(a[1..], b[1..], c[1..]);
      } else if a[0] != b[0] && b[0] != c[0] {
        ChunkLtTransitive(a[0], b[0], c[0]);
        if a[0] == c[0] {
          ChunkLtIrreflexive(a[0]);
        }
      }
    }
  }

  /** Not above, by totality: a key that is not below another is above it or equal to it. */
  lemma KeyLeTransitive(a: seq<Chunk>, b: seq<Chunk>, c: seq<Chunk>)
    requires !KeyLt(b, a) && !KeyLt(c, b)
    ensures !KeyLt(c, a)
  {
    if KeyLt(c, a) {
      if a != b {
        KeyLtTotal(a, b);
        KeyLtTransitive(c, a, b);
      }
    }
  }

  /** No later element's key is below an earlier one's. */
  predicate AlphaSorted(l: seq<string>) {
    forall i, j :: 0 <= i < j < |l| ==> !KeyLt(AlphaKey(l[j]), AlphaKey(l[i]))
  }

  /** `x` placed after every element whose key is not above its own. */
  function InsertAlpha(x: string, s: seq<string>): (r: seq<string>)
    requires AlphaSorted(s)
    ensures AlphaSorted(r) && multiset(r) == multiset(s) + multiset{x}
    ensures forall k :: 0 <= k < |r| ==> r[k] == x || r[k] in s
    decreases |s|
  {
    if s == [] then [x]
    else if KeyLt(AlphaKey(x), AlphaKey(s[0])) then
      InsertFrontSorted(x, s);
      [x] + s
    else
      var t := InsertAlpha(x, s[1..]);
      assert s == [s[0]] + s[1..];
      InsertBehindSorted(s[0], t, x, s[1..]);
      [s[0]] + t
  }

  lemma InsertFrontSorted(x: string, s: seq<string>)
    requires AlphaSorted(s) && s != [] && KeyLt(AlphaKey(x), AlphaKey(s[0]))
    ensures AlphaSorted([x] + s)
  {
    var r := [x] + s;
    forall j | 0 < j < |r| ensures !KeyLt(AlphaKey(r[j]), AlphaKey(x)) {
      var kj := AlphaKey(r[j]);
      var k0 := AlphaKey(s[0]);
      var kx := AlphaKey(x);
      if KeyLt(kj, kx) {
        KeyLtTransitive(kj, kx, k0);
        if j == 1 {
          KeyLtIrreflexive(k0);
        }
      }
    }
  }

  lemma InsertBehindSorted(h: string, t: seq<string>, x: string, rest: seq<string>)
    requires AlphaSorted([h] + rest) && AlphaSorted(t)
    requires forall k :: 0 <= k < |t| ==> t[k] == x || t[k] in rest
    requires !KeyLt(AlphaKey(x), AlphaKey(h))
    ensures AlphaSorted([h] + t)
  {
    forall j | 0 <= j < |t| ensures !KeyLt(AlphaKey(t[j]), AlphaKey(h)) {
      HeadBelow(h, rest, t[j], x);
    }
    SortedCons(h, t);
  }

  /** A sorted list stays sorted behind a head no later key is below. */
  lemma SortedCons(h: string, t: seq<string>)
    requires AlphaSorted(t)
    requires forall j :: 0 <= j < |t| ==> !KeyLt(AlphaKey(t[j]), AlphaKey(h))
    ensures AlphaSorted([h] + t)
  {
    var r := [h] + t;
    forall i, j | 0 <= i < j < |r| ensures !KeyLt(AlphaKey(r[j]), AlphaKey(r[i])) {
      assert r[j] == t[j - 1];
      if i > 0 {
        assert r[i] == t[i - 1];
      }
    }
  }

  lemma HeadBelow(h: string, rest: seq<string>, e: string, x: string)
    requires AlphaSorted([h] + rest)
    requires e == x || e in rest
    requires !KeyLt(AlphaKey(x), AlphaKey(h))
    ensures !KeyLt(AlphaKey(e), AlphaKey(h))
  {
    if e != x {
      var k :| 0 <= k < |rest| && rest[k] == e;
      assert ([h] + rest)[k + 1] == e;
      assert ([h] + rest)[0] == h;
    }
  }

  /** `sorted(l, key=alphanum_key)` */
  function SortedAlphanum(l: seq<string>): (r: seq<string>)
    ensures AlphaSorted(r) && multiset(r) == multiset(l)
    decreases |l|
  {
    if l == [] then []
    else
      assert l == l[..|l| - 1] + [l[|l| - 1]];
      InsertAlpha(l[|l| - 1], SortedAlphanum(l[..|l| - 1]))
  }

  /** The key of a digit-free text followed by a number is that text, the number, and an empty text. */
  lemma AlphaKeyNumbered(p: string, n: nat)
    requires forall k :: 0 <= k < |p| ==> !IsDigit(p[k])
    ensures AlphaKey(p + NatToStr(n)) == [Txt(p), Nbr(n), Txt("")]
  {
    var d := NatToStr(n);
    var s := p + d;
    assert s[|p|] == d[0];
    assert forall k :: 0 <= k < |p| ==> s[k] == p[k];
    assert TextLen(s) == |p|;
    assert s[|p|..] == d;
    assert DigitLen(d) == |d|;
    assert d[..|d|] == d && d[|d|..] == "";
    NatToStrValue(n);
  }

  /** Keys that differ only in their middle number compare as the numbers do. */
  lemma KeyLtMiddle(x: Chunk, m: nat, n: nat, y: Chunk)
    ensures KeyLt([x, Nbr(m), y], [x, Nbr(n), y]) <==> m < n
  {
    var ka := [x, Nbr(m), y];
    var kb := [x, Nbr(n), y];
    assert ka[1..] == [Nbr(m), y] && kb[1..] == [Nbr(n), y];
    if m == n {
      KeyLtIrreflexive(ka);
    }
  }

  /** Numbered names sort by their numbers: "file9" before "file10", although "file10" is the smaller string. */
  lemma NumbersOrderNumerically(p: string, a: nat, b: nat)
    requires forall k :: 0 <= k < |p| ==> !IsDigit(p[k])
    ensures KeyLt(AlphaKey(p + NatToStr(a)), AlphaKey(p + NatToStr(b))) <==> a < b
  {
    AlphaKeyNumbered(p, a);
    AlphaKeyNumbered(p, b);
    KeyLtMiddle(Txt(p), a, b, Txt(""));
  }
}
