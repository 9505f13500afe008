// The QIIME 2 tool family: `make_target` dispatches on the plugin and its
// subcommand, names the checkpoint file and merges each subcommand's table
// of default options into the user's arguments (`update_qiime_args`); the
// constructor then points stdout at the log directory, strips the round,
// sets the resource profile and builds the command line through the shared
// plan.
module QiimeTools {
  import opened Wrappers
  import opened PyStr
  import opened Params
  import opened BaseWrappers
  import opened NewWrappers
  import Tools

  // ---------------------------------------------------------------------
  // The user's argument tokens
  // ---------------------------------------------------------------------

  /** `[y for x in args for y in x.split()]`: every whitespace token of every argument, in order. */
  function Tokens(args: seq<string>): seq<string>
    decreases |args|
  {
    if args == [] then [] else SplitWs(args[0]) + Tokens(args[1..])
  }

  /** Text found in a suffix of `s` is found in `s`. */
  lemma ContainsFrom(s: string, i: nat, t: string)
    requires i <= |s| && Contains(s[i..], t)
    ensures Contains(s, t)
  {
    ContainsConcat(s[..i], s[i..], "", t);
    assert s[..i] + s[i..] + "" == s;
  }

  /** Every token of `s.split()` occurs in `s`. */
  lemma {:induction false} SplitWsContains(s: string, t: string)
    requires t in SplitWs(s)
    ensures Contains(s, t)
    decreases |s|
  {
    if IsSpace(s[0]) {
      SplitWsContains(s[1..], t);
    } else {
      var tk := Token(s);
      TokenFacts(s);
      if t == tk {
        assert StartsWith(s, t);
      } else {
        SplitWsContains(s[|tk|..], t);
        ContainsFrom(s, |tk|, t);
      }
    }
  }

  /**
   * A token of the arguments is found in one of them, so the list of
   * indices `update_qiime_args` takes the first of is never empty.
   */
  lemma {:induction false} TokensFound(args: seq<string>, t: string)
    requires t in Tokens(args)
    ensures FirstContaining(args, t).Some?
    decreases |args|
  {
    if t in SplitWs(args[0]) {
      SplitWsContains(args[0], t);
    } else {
      TokensFound(args[1..], t);
      var i := FirstContaining(args[1..], t).value;
      assert args[1..][i] == args[i + 1];
    }
  }

  /** No token holds whitespace. */
  lemma {:induction false} TokensNoSpace(args: seq<string>, t: string)
    requires t in Tokens(args)
    ensures forall j :: 0 <= j < |t| ==> !IsSpace(t[j])
    decreases |args|
  {
    SplitWsFacts(args[0]);
    if t !in SplitWs(args[0]) {
      TokensNoSpace(args[1..], t);
    }
  }

  // ---------------------------------------------------------------------
  // update_qiime_args
  // ---------------------------------------------------------------------

  /** A default whose value is a file name: its key mentions "--i-", "--o-" or "-file". */
  predicate FileKey(k: string) {
    Contains(k, "--i-") || Contains(k, "--o-") || Contains(k, "-file")
  }

  /** `os.path.join(kwargs['qiime_dir'], v)`: a missing qiime_dir or a value that is not text raises. */
  function JoinVal(dir: Option<string>, v: Val): (r: Result<string>)
    ensures r.Success? <==> dir.Some? && v.Text?
    ensures r.Success? ==> r.value == PathJoin(dir.value, v.s)
  {
    if dir.None? then Failure("KeyError: 'qiime_dir'")
    else
      match v
      case Text(s) => Success(PathJoin(dir.value, s))
      case Num(_) => Failure("AttributeError: 'int' object has no attribute 'startswith'")
      case Flag(_) => Failure("AttributeError: 'bool' object has no attribute 'startswith'")
      case Null => Failure("AttributeError: 'NoneType' object has no attribute 'startswith'")
  }

  /** The loop's state: the lines added to add_args so far, and `tmp_args`. */
  datatype QState = QState(missing: seq<string>, tmp: seq<string>)

  /**
   * One iteration for the default `k: v`: a key that is no token of the
   * user's arguments adds the line "k <qiime_dir>/v"; a present file key
   * has v replaced by <qiime_dir>/v in the first argument containing it;
   * any other present key changes nothing.
   */
  function QiimeStep(st: QState, k: string, v: Val, args: seq<string>, dir: Option<string>): Result<QState> {
    if k !in Tokens(args) then
      var j :- JoinVal(dir, v);
      Success(st.(missing := st.missing + [k + " " + j]))
    else if FileKey(k) then
      match FirstContaining(args, k)
      case None => Failure("IndexError: list index out of range")
      case Some(pos) =>
        var j :- JoinVal(dir, v);
        if pos < |st.tmp| then Success(st.(tmp := st.tmp[pos := Replace(st.tmp[pos], v.s, j)]))
        else Failure("IndexError: list assignment index out of range")
    else Success(st)
  }

  /** The loop of `update_qiime_args` over the defaults, in the dictionary's iteration order. */
  function QiimeFold(defs: seq<(string, Val)>, args: seq<string>, dir: Option<string>): Result<QState>
    decreases |defs|
  {
    if defs == [] then Success(QState([], args))
    else
      var st :- QiimeFold(defs[..|defs| - 1], args, dir);
      QiimeStep(st, defs[|defs| - 1].0, defs[|defs| - 1].1, args, dir)
  }

  /** What a default needs for its iteration to succeed: a qiime_dir and a text value, unless the key is present and not a file key. */
  predicate StepNeeds(d: (string, Val), args: seq<string>, dir: Option<string>) {
    d.0 !in Tokens(args) || FileKey(d.0) ==> dir.Some? && d.1.Text?
  }

  /** The whole loop succeeds exactly when every default meets its needs. */
  lemma {:induction false} FoldSucceeds(defs: seq<(string, Val)>, args: seq<string>, dir: Option<string>)
    ensures QiimeFold(defs, args, dir).Success? <==> forall i :: 0 <= i < |defs| ==> StepNeeds(defs[i], args, dir)
    ensures QiimeFold(defs, args, dir).Success? ==> |QiimeFold(defs, args, dir).value.tmp| == |args|
    decreases |defs|
  {
    if defs != [] {
      var pre := defs[..|defs| - 1];
      FoldSucceeds(pre, args, dir);
      var k := defs[|defs| - 1].0;
      assert forall i :: 0 <= i < |pre| ==> pre[i] == defs[i];
      if k in Tokens(args) && FileKey(k) {
        TokensFound(args, k);
      }
    }
  }

  /** The defaults whose keys are no token of the arguments, in order. */
  function Absent(defs: seq<(string, Val)>, tokens: seq<string>): (r: seq<(string, Val)>)
    ensures |r| <= |defs|
    decreases |defs|
  {
    if defs == [] then []
    else Absent(defs[..|defs| - 1], tokens) + (if defs[|defs| - 1].0 !in tokens then [defs[|defs| - 1]] else [])
  }

  /** The lines added to add_args are one per absent default, in order: its key, a space and its value under qiime_dir. */
  lemma {:induction false} FoldMissing(defs: seq<(string, Val)>, args: seq<string>, dir: Option<string>)
    requires QiimeFold(defs, args, dir).Success?
    ensures var m := QiimeFold(defs, args, dir).value.missing;
      var a := Absent(defs, Tokens(args));
      |m| == |a| && forall i :: 0 <= i < |a| ==> m[i] == a[i].0 + " " + PathJoin(OptStr(dir), ValStr(a[i].1))
    decreases |defs|
  {
    if defs != [] {
      var pre := defs[..|defs| - 1];
      FoldMissing(pre, args, dir);
      var k := defs[|defs| - 1].0;
      if k !in Tokens(args) {
        var v := defs[|defs| - 1].1;
        assert v.Text? && ValStr(v) == v.s;
      }
    }
  }

  /** The defaults that rewrite argument `j`: present file keys whose first containing argument is `j`. */
  function Hits(defs: seq<(string, Val)>, args: seq<string>, j: nat): (r: seq<(string, Val)>)
    ensures |r| <= |defs|
    decreases |defs|
  {
    if defs == [] then []
    else
      var d := defs[|defs| - 1];
      Hits(defs[..|defs| - 1], args, j) +
        (if d.0 in Tokens(args) && FileKey(d.0) && FirstContaining(args, d.0) == Some(j) then [d] else [])
  }

  /** `s` after each hit in turn replaces its value by the value under qiime_dir. */
  function Rewrites(s: string, hits: seq<(string, Val)>, d: string): string
    decreases |hits|
  {
    if hits == [] then s
    else
      var h := hits[|hits| - 1];
      var t := Rewrites(s, hits[..|hits| - 1], d);
      Replace(t, ValStr(h.1), PathJoin(d, ValStr(h.1)))
  }

  /** One default's effect on argument `j` of `tmp_args`: a hit rewrites it, anything else leaves it. */
  lemma StepRewrites(st: QState, d: (string, Val), args: seq<string>, dir: Option<string>, j: nat)
    requires |st.tmp| == |args| && j < |args|
    requires QiimeStep(st, d.0, d.1, args, dir).Success?
    ensures var t := QiimeStep(st, d.0, d.1, args, dir).value.tmp;
      |t| == |args| &&
      t[j] == if d.0 in Tokens(args) && FileKey(d.0) && FirstContaining(args, d.0) == Some(j)
              then Replace(st.tmp[j], ValStr(d.1), PathJoin(OptStr(dir), ValStr(d.1)))
              else st.tmp[j]
  {
  }

  /**
   * `tmp_args` keeps the arguments' order and count; each argument is
   * rewritten by the defaults that hit it, in order, and an argument no
   * default hits is returned untouched.
   */
  lemma {:induction false} FoldRewrites(defs: seq<(string, Val)>, args: seq<string>, dir: Option<string>)
    requires QiimeFold(defs, args, dir).Success?
    ensures var t := QiimeFold(defs, args, dir).value.tmp;
      |t| == |args| &&
      forall j :: 0 <= j < |args| ==> t[j] == Rewrites(args[j], Hits(defs, args, j), OptStr(dir))
    decreases |defs|
  {
    if defs != [] {
      var pre := defs[..|defs| - 1];
      var d := defs[|defs| - 1];
      FoldRewrites(pre, args, dir);
      var st := QiimeFold(pre, args, dir).value;
      assert QiimeFold(defs, args, dir) == QiimeStep(st, d.0, d.1, args, dir);
      forall j | 0 <= j < |args|
        ensures QiimeFold(defs, args, dir).value.tmp[j] == Rewrites(args[j], Hits(defs, args, j), OptStr(dir))
      {
        StepRewrites(st, d, args, dir, j);
        var hp := Hits(pre, args, j);
        if d.0 in Tokens(args) && FileKey(d.0) && FirstContaining(args, d.0) == Some(j) {
          assert Hits(defs, args, j) == hp + [d];
          assert (hp + [d])[..|hp|] == hp;
        } else {
          assert Hits(defs, args, j) == hp;
        }
      }
      FoldSucceeds(defs, args, dir);
    }
  }

  /** An argument that no default hits comes back as the user wrote it. */
  lemma Untouched(defs: seq<(string, Val)>, args: seq<string>, dir: Option<string>, j: nat)
    requires QiimeFold(defs, args, dir).Success? && j < |args|
    requires forall i :: 0 <= i < |defs| && defs[i].0 in Tokens(args) && FileKey(defs[i].0) ==>
      FirstContaining(args, defs[i].0) != Some(j)
    ensures var t := QiimeFold(defs, args, dir).value.tmp; |t| == |args| && t[j] == args[j]
  {
    FoldRewrites(defs, args, dir);
    NoHits(defs, args, j);
  }

  lemma {:induction false} NoHits(defs: seq<(string, Val)>, args: seq<string>, j: nat)
    requires forall i :: 0 <= i < |defs| && defs[i].0 in Tokens(args) && FileKey(defs[i].0) ==>
      FirstContaining(args, defs[i].0) != Some(j)
    ensures Hits(defs, args, j) == []
    decreases |defs|
  {
    if defs != [] {
      var pre := defs[..|defs| - 1];
      assert forall i :: 0 <= i < |pre| ==> pre[i] == defs[i];
      NoHits(pre, args, j);
    }
  }

  /** A key with whitespace in it is never a token, so its default is always added. */
  lemma SpacedKeyAlwaysAdded(k: string, args: seq<string>, j: nat)
    requires j < |k| && IsSpace(k[j])
    ensures k !in Tokens(args)
  {
    if k in Tokens(args) {
      TokensNoSpace(args, k);
    }
  }

  /** Once a prefix of the defaults raises, the whole loop raises the same exception. */
  lemma {:induction false} FoldPrefixFails(defs: seq<(string, Val)>, n: nat, args: seq<string>, dir: Option<string>)
    requires n <= |defs| && QiimeFold(defs[..n], args, dir).Failure?
    ensures QiimeFold(defs, args, dir) == QiimeFold(defs[..n], args, dir)
    decreases |defs| - n
  {
    if n < |defs| {
      assert defs[..n + 1][..n] == defs[..n];
      FoldPrefixFails(defs, n + 1, args, dir);
    } else {
      assert defs[..n] == defs;
    }
  }

  /**
   * `update_qiime_args` on the wrapper's fields: the lines of the absent
   * defaults are appended to add_args as the loop goes, and `tmp_args`,
   * a copy of the arguments rewritten in place, is returned.
   */
  method UpdateQiimeArgs(f: SuffixFields, defs: seq<(string, Val)>, args: seq<string>, kw: Kwargs)
    returns (r: Result<seq<string>>)
    modifies f
    ensures var st := QiimeFold(defs, args, kw.qiimeDir);
      (r.Success? <==> st.Success?) &&
      (r.Success? ==> r.value == st.value.tmp && f.State() == old(f.State()).(addArgs := old(f.addArgs) + st.value.missing)) &&
      (r.Failure? ==> r.error == st.error)
  {
    var tmp := args;
    var tokens := Tokens(args);
    ghost var base := f.addArgs;
    ghost var missing: seq<string> := [];
    var i := 0;
    while i < |defs|
      invariant 0 <= i <= |defs|
      invariant QiimeFold(defs[..i], args, kw.qiimeDir) == Success(QState(missing, tmp))
      invariant f.State() == old(f.State()).(addArgs := base + missing)
    {
      assert defs[..i + 1][..i] == defs[..i];
      var (k, v) := defs[i];
      assert QiimeFold(defs[..i + 1], args, kw.qiimeDir) == QiimeStep(QState(missing, tmp), k, v, args, kw.qiimeDir);
      if k !in tokens {
        var j := JoinVal(kw.qiimeDir, v);
        if j.Failure? {
          FoldPrefixFails(defs, i + 1, args, kw.qiimeDir);
          return Failure(j.error);
        }
        f.addArgs := f.addArgs + [k + " " + j.value];
        missing := missing + [k + " " + j.value];
      } else if FileKey(k) {
        var pos := FirstContaining(args, k);
        if pos.None? {
          FoldPrefixFails(defs, i + 1, args, kw.qiimeDir);
          return Failure("IndexError: list index out of range");
        }
        var j := JoinVal(kw.qiimeDir, v);
        if j.Failure? {
          FoldPrefixFails(defs, i + 1, args, kw.qiimeDir);
          return Failure(j.error);
        }
        if pos.value >= |tmp| {
          FoldPrefixFails(defs, i + 1, args, kw.qiimeDir);
          return Failure("IndexError: list assignment index out of range");
        }
        tmp := tmp[pos.value := Replace(tmp[pos.value], v.s, j.value)];
      }
      i := i + 1;
    }
    assert defs[..|defs|] == defs;
    r := Success(tmp);
  }

  // ---------------------------------------------------------------------
  // Plugins, subcommands and their default tables
  // ---------------------------------------------------------------------

  /** The plugins `make_target` tests the second '_'-field against. */
  datatype Plugin = ToolsPlugin | Demux | Dada2 | Metadata | Phylogeny | FeatureTable | Diversity | Emperor

  function PluginName(p: Plugin): string {
    match p
    case ToolsPlugin => "tools"
    case Demux => "demux"
    case Dada2 => "dada2"
    case Metadata => "metadata"
    case Phylogeny => "phylogeny"
    case FeatureTable => "feature-table"
    case Diversity => "diversity"
    case Emperor => "emperor"
  }

  function ParsePlugin(t: string): (r: Option<Plugin>)
    ensures r.Some? ==> PluginName(r.value) == t
  {
    if t == "tools" then Some(ToolsPlugin)
    else if t == "demux" then Some(Demux)
    else if t == "dada2" then Some(Dada2)
    else if t == "metadata" then Some(Metadata)
    else if t == "phylogeny" then Some(Phylogeny)
    else if t == "feature-table" then Some(FeatureTable)
    else if t == "diversity" then Some(Diversity)
    else if t == "emperor" then Some(Emperor)
    else None
  }

  /** The subcommands with a target and a table of defaults. */
  datatype QSub =
    | Import
    | EmpSingle | EmpPaired | DemuxSummarize
    | DenoisePaired | DenoiseSingle
    | Tabulate
    | AlignToTree
    | TableSummarize | TabulateSeqs | FilterSamples
    | CoreMetrics | AlphaGroupSignificance | BetaGroupSignificance | AlphaRarefaction
    | Plot

  /** The plugin a subcommand belongs to and the third '_'-field that names it. */
  function QSubName(q: QSub): (Plugin, string) {
    match q
    case Import => (ToolsPlugin, "import")
    case EmpSingle => (Demux, "emp-single")
    case EmpPaired => (Demux, "emp-paired")
    case DemuxSummarize => (Demux, "summarize")
    case DenoisePaired => (Dada2, "denoise-paired")
    case DenoiseSingle => (Dada2, "denoise-single")
    case Tabulate => (Metadata, "tabulate")
    case AlignToTree => (Phylogeny, "align-to-tree-mafft-fasttree")
    case TableSummarize => (FeatureTable, "summarize")
    case TabulateSeqs => (FeatureTable, "tabulate-seqs")
    case FilterSamples => (FeatureTable, "filter-samples")
    case CoreMetrics => (Diversity, "core-metrics-phylogenetic")
    case AlphaGroupSignificance => (Diversity, "alpha-group-significance")
    case BetaGroupSignificance => (Diversity, "beta-group-significance")
    case AlphaRarefaction => (Diversity, "alpha-rarefaction")
    case Plot => (Emperor, "plot")
  }

  /** A plugin's `if`/`elif` chain on the subcommand field. */
  function ParseQSub(p: Plugin, t: string): (r: Option<QSub>)
    ensures r.Some? ==> QSubName(r.value) == (p, t)
  {
    match p
    case ToolsPlugin => if t == "import" then Some(Import) else None
    case Demux =>
      if t == "emp-single" then Some(EmpSingle)
      else if t == "emp-paired" then Some(EmpPaired)
      else if t == "summarize" then Some(DemuxSummarize)
      else None
    case Dada2 =>
      if t == "denoise-paired" then Some(DenoisePaired)
      else if t == "denoise-single" then Some(DenoiseSingle)
      else None
    case Metadata => if t == "tabulate" then Some(Tabulate) else None
    case Phylogeny => if t == "align-to-tree-mafft-fasttree" then Some(AlignToTree) else None
    case FeatureTable =>
      if t == "summarize" then Some(TableSummarize)
      else if t == "tabulate-seqs" then Some(TabulateSeqs)
      else if t == "filter-samples" then Some(FilterSamples)
      else None
    case Diversity =>
      if t == "core-metrics-phylogenetic" then Some(CoreMetrics)
      else if t == "alpha-group-significance" then Some(AlphaGroupSignificance)
      else if t == "beta-group-significance" then Some(BetaGroupSignificance)
      else if t == "alpha-rarefaction" then Some(AlphaRarefaction)
      else None
    case Emperor => if t == "plot" then Some(Plot) else None
  }

  /** Every plugin is recognised by its own name, and every subcommand under its plugin and name. */
  lemma QSubNameParses(p: Plugin, q: QSub)
    ensures ParsePlugin(PluginName(p)) == Some(p)
    ensures ParseQSub(QSubName(q).0, QSubName(q).1) == Some(q)
  {
  }

  /** The message a plugin exits with on an unknown subcommand. */
  function UnknownSub(p: Plugin, t: string): string {
    match p
    case Demux => "Error !!! unknown subcommand used for the Qiime Demux plugin"
    case Dada2 =>
      if t == "denoise-pyro" then " this subcommand is not implemented for the qiime dada2 plugin"
      else "Error !!! unknown subcommand used for the Qiime dada2 plugin"
    case _ => "Error !!! unknown subcommand used for the Qiime " + PluginName(p) + " plugin"
  }

  /**
   * The `if` chain of `make_target`: the subcommand a name selects, none
   * for an unknown plugin or an unknown tools subcommand, or the exit of
   * any other plugin on a subcommand it does not know.
   */
  function QiimeDispatch(name: string): (r: Result<Option<QSub>>)
    ensures r.Success? && r.value.Some? ==>
      var parts := Split(name, '_');
      |parts| >= 3 && ParsePlugin(parts[1]).Some? && QSubName(r.value.value) == (ParsePlugin(parts[1]).value, parts[2])
  {
    var parts := Split(name, '_');
    if |parts| < 2 then Failure("IndexError: list index out of range")
    else
      match ParsePlugin(parts[1])
      case None => Success(None)
      case Some(p) =>
        if |parts| < 3 then Failure("IndexError: list index out of range")
        else
          match ParseQSub(p, parts[2])
          case Some(q) => Success(Some(q))
          case None => if p.ToolsPlugin? then Success(None) else Failure(UnknownSub(p, parts[2]))
  }

  /** A known plugin with an unknown subcommand exits, except tools, which sets nothing. */
  lemma UnknownSubcommandExits(name: string)
    requires |Split(name, '_')| >= 3
    requires ParsePlugin(Split(name, '_')[1]).Some?
    requires ParseQSub(ParsePlugin(Split(name, '_')[1]).value, Split(name, '_')[2]).None?
    ensures var p := ParsePlugin(Split(name, '_')[1]).value;
      QiimeDispatch(name) == if p.ToolsPlugin? then Success(None) else Failure(UnknownSub(p, Split(name, '_')[2]))
    ensures ParsePlugin(Split(name, '_')[1]) == Some(Dada2) && Split(name, '_')[2] == "denoise-pyro" ==>
      QiimeDispatch(name) == Failure(" this subcommand is not implemented for the qiime dada2 plugin")
  {
  }

  /** The pcoa results the emperor plot reads and the axis it is drawn along. */
  const PcoaRest: string := "-metrics-results/unweighted_unifrac"
  const PcoaStem: string := "core" + PcoaRest
  const PcoaResults: string := PcoaStem + PcoaEnding
  const CustomAxes: string := "DaysSinceExperimentStart"
  const PcoaEnding: string := "_pcoa_results.qza"

  /** `s` without `suffix` at its end, when it ends so. */
  function RemoveSuffix(s: string, suffix: string): (r: string)
    ensures EndsWith(s, suffix) ==> r + suffix == s
    ensures !EndsWith(s, suffix) ==> r == s
  {
    if EndsWith(s, suffix) then
      var r := s[..|s| - |suffix|];
      assert r + suffix == s;
      r
    else s
  }

  /**
   * The emperor plot's output name as written: `.strip` of the pcoa path
   * by the characters of "_pcoa_results.qza" (a character set, not a
   * suffix), '_' turned into '-', then "-emperor-", the axis and ".qzv".
   */
  function EmperorNameAsWritten(pcoa: string, axes: string): string {
    ReplaceChar(Strip(pcoa, CharSet(PcoaEnding)), '_', '-') + "-emperor-" + axes + ".qzv"
  }

  /** The output name evidently meant: the pcoa path without its "_pcoa_results.qza" ending. */
  function EmperorName(pcoa: string, axes: string): string {
    ReplaceChar(RemoveSuffix(pcoa, PcoaEnding), '_', '-') + "-emperor-" + axes + ".qzv"
  }

  /** The intended name keeps the pcoa path's directory and stem, '_' written as '-'. */
  lemma EmperorNameStem(stem: string, axes: string)
    ensures EmperorName(stem + PcoaEnding, axes) == ReplaceChar(stem, '_', '-') + "-emperor-" + axes + ".qzv"
  {
    var s := stem + PcoaEnding;
    assert s[|s| - |PcoaEnding|..] == PcoaEnding;
    assert s[..|s| - |PcoaEnding|] == stem;
  }

  /** Stripping a run of set characters in front of a character outside the set leaves that character first. */
  lemma StripKeepsFirst(a: string, b: string, cs: set<char>)
    requires forall k :: 0 <= k < |a| ==> a[k] in cs
    requires b != [] && b[0] !in cs
    ensures var r := Strip(a + b, cs); r != [] && r[0] == b[0]
  {
    LStripPrefix(a, b, cs);
    var r := RStrip(b, cs);
    assert r == b[..|r|];
  }

  /** The characters of "_pcoa_results.qza" include those of "core" but not '-'. */
  lemma EndingChars()
    ensures forall k :: 0 <= k < 4 ==> "core"[k] in CharSet(PcoaEnding)
    ensures '-' !in CharSet(PcoaEnding)
  {
    var chars := PcoaEnding;
    assert chars[2] == 'c' && chars[3] == 'o' && chars[6] == 'r' && chars[7] == 'e';
    forall k | 0 <= k < |chars| ensures chars[k] != '-' {
    }
  }

  /**
   * On the default pcoa path the name as written loses the leading "core"
   * of its directory (it starts with '-'), while the intended name starts
   * with the directory's 'c'.
   */
  lemma EmperorNameDiffers(pcoa: string, axes: string)
    requires pcoa == PcoaResults
    ensures EmperorNameAsWritten(pcoa, axes)[0] == '-'
    ensures EmperorName(pcoa, axes)[0] == 'c'
    ensures EmperorNameAsWritten(pcoa, axes) != EmperorName(pcoa, axes)
  {
    var b := PcoaRest + PcoaEnding;
    assert pcoa == "core" + b;
    assert b[0] == '-';
    EndingChars();
    StripKeepsFirst("core", b, CharSet(PcoaEnding));
    EmperorNameStem(PcoaStem, axes);
    assert PcoaStem[0] == 'c';
  }

  /** `os.path.join`-free text values. */
  function T(s: string): Val {
    Text(s)
  }

  /**
   * The table of defaults a subcommand merges in, in the order the source
   * lists them. Phylogeny is handed the sample name in place of its
   * subcommand, so its table is used only for a sample named like the
   * subcommand; otherwise the table is empty.
   */
  function QiimeDefaults(q: QSub, input: string): seq<(string, Val)> {
    match q
    case Import =>
      [("--type", T("EMPPairedEndSequences")), ("--input-path", T("emp-paired-end-sequences")),
       ("--output-path", T("emp-paired-end-sequences.qza"))]
    case EmpPaired =>
      [("--m-barcodes-file", T("sample-metadata.tsv")), ("--m-barcodes-column", T("BarcodeSequence")),
       ("--i-seqs", T("emp-paired-end-sequences.qza")), ("--o-per-sample-sequences", T("demux.qza")),
       ("--p-rev-comp-mapping-barcodes", T(""))]
    case EmpSingle =>
      [("--i-seqs", T("emp-single-end-sequences.qza")), ("--m-barcodes-file", T("sample-metadata.tsv")),
       ("--m-barcodes-column", T("BarcodeSequence")), ("--o-per-sample-sequences", T("demux.qza"))]
    case DemuxSummarize =>
      [("--i-data", T("demux.qza")), ("--o-visualization", T("demux.qzv"))]
    case DenoiseSingle =>
      [("--i-demultiplexed-seqs", T("demux.qza")), ("--p-trim-left", T("0")), ("--p-trunc-len", T("120")),
       ("--o-representative-sequences", T("rep-seqs-dada2.qza")), ("--o-table", T("table-dada2.qza")),
       ("--o-denoising-stats", T("stats-dada2.qza"))]
    case DenoisePaired =>
      [("--p-n-threads", Num(2)), ("--i-demultiplexed-seqs", T("demux.qza")), ("--p-trim-left-f", Num(13)),
       ("--p-trim-left-r", Num(13)), ("--p-trunc-len-f", Num(150)), ("--p-trunc-len-r", Num(150)),
       ("--o-table", T("table.qza")), ("--o-representative-sequences", T("rep-seqs.qza")),
       ("--o-denoising-stats", T("denoising-stats.qza"))]
    case Tabulate =>
      [("--m-input-file", T("stats-dada2.qza")), ("--o-visualization", T("stats-dada2.qzv"))]
    case AlignToTree =>
      if input == "align-to-tree-mafft-fasttree" then
        [("  --i-sequences", T("rep-seqs.qza")), ("--o-alignment", T("aligned-rep-seqs.qza")),
         ("--o-masked-alignment", T("masked-aligned-rep-seqs.qza")), ("--o-tree", T("unrooted-tree.qza")),
         ("--o-rooted-tree", T("rooted-tree.qza"))]
      else []
    case TableSummarize =>
      [("--i-table", T("table.qza")), ("--o-visualization", T("table.qzv")),
       ("--m-sample-metadata-file", T("sample-metadata.tsv"))]
    case TabulateSeqs =>
      [("--i-data", T("rep-seqs.qza")), ("--o-visualization", T("rep-seqs.qzv"))]
    case FilterSamples =>
      [("--i-table", T("table.qza")), ("--m-metadata-file", T("sample-metadata.tsv")),
       ("--p-where", T("BodySite='gut'")), ("--o-filtered-table", T("gut-table.qza"))]
    case CoreMetrics =>
      [("--i-phylogeny", T("rooted-tree.qza")), ("--i-table", T("table.qza")), ("--p-sampling-depth", Num(1109)),
       ("--m-metadata-file", T("sample-metadata.tsv")), ("--output-dir", T("core-metrics-results"))]
    case AlphaGroupSignificance =>
      [("--i-alpha-diversity", T("core-metrics-results/faith_pd_vector.qza")),
       ("--m-metadata-file", T("sample-metadata.tsv")),
       ("--o-visualization", T("core-metrics-results/faith-pd-group-significance.qzv"))]
    case BetaGroupSignificance =>
      [("--i-distance-matrix", T("core-metrics-results/unweighted_unifrac_distance_matrix.qza")),
       ("--m-metadata-file", T("sample-metadata.tsv")), ("--m-metadata-column", T("BodySite")),
       ("--o-visualization", T("core-metrics-results/unweighted-unifrac-body-site-significance.qzv")),
       ("--p-pairwise", T(""))]
    case AlphaRarefaction =>
      [("--i-table", T("table.qza")), ("--i-phylogeny", T("rooted-tree.qza")), ("--p-max-depth", Num(4000)),
       ("--m-metadata-file", T("sample-metadata.tsv")), ("--o-visualization", T("alpha-rarefaction.qzv"))]
    case Plot =>
      [("--i-pcoa", T(PcoaResults)), ("--m-metadata-file", T("sample-metadata.tsv")),
       ("--p-custom-axes", T(CustomAxes)), ("--o-visualization", T(EmperorNameAsWritten(PcoaResults, CustomAxes)))]
  }

  /**
   * The phylogeny quirk: for any sample not named like the subcommand the
   * table is empty, so the user's arguments are taken as they are and
   * nothing is added.
   */
  lemma PhylogenyQuirk(input: string, args: seq<string>, dir: Option<string>)
    requires input != "align-to-tree-mafft-fasttree"
    ensures QiimeDefaults(AlignToTree, input) == []
    ensures QiimeFold(QiimeDefaults(AlignToTree, input), args, dir) == Success(QState([], args))
  {
  }

  /**
   * The emperor plot's default output is the name as written, so the
   * constructed command writes a visualisation whose path has lost the
   * leading "core" of its directory.
   */
  lemma PlotDefaultName(input: string)
    ensures var d := QiimeDefaults(Plot, input);
      |d| == 4 && d[3] == ("--o-visualization", T(EmperorNameAsWritten(PcoaResults, CustomAxes))) &&
      d[3].1.s[0] == '-' && d[3].1.s != EmperorName(PcoaResults, CustomAxes)
  {
    EmperorNameDiffers(PcoaResults, CustomAxes);
  }

  /** When the table is used, its first key carries two leading spaces and is therefore always added. */
  lemma PhylogenySpacedKey(args: seq<string>)
    ensures var d := QiimeDefaults(AlignToTree, "align-to-tree-mafft-fasttree");
      d[0].0 == "  --i-sequences" && d[0].0 !in Tokens(args)
  {
    var k := "  --i-sequences";
    SpacedKeyAlwaysAdded(k, args, 0);
  }

  /**
   * Numeric defaults cannot be joined onto qiime_dir: denoise-paired with
   * no user arguments raises on its first default, and so does any table
   * whose numeric key the user leaves out.
   */
  lemma NumericDefaultRaises(defs: seq<(string, Val)>, args: seq<string>, dir: Option<string>, i: nat)
    requires i < |defs| && defs[i].1.Num? && defs[i].0 !in Tokens(args)
    ensures QiimeFold(defs, args, dir).Failure?
  {
    FoldSucceeds(defs, args, dir);
  }

  /** The first default of denoise-paired is the numeric thread count. */
  lemma DenoisePairedNeedsThreads(dir: Option<string>)
    ensures QiimeFold(QiimeDefaults(DenoisePaired, ""), [], dir).Failure?
  {
    var d := QiimeDefaults(DenoisePaired, "");
    assert d[0] == ("--p-n-threads", Num(2));
    NumericDefaultRaises(d, [], dir, 0);
  }

  // ---------------------------------------------------------------------
  // make_target
  // ---------------------------------------------------------------------

  /** The checkpoint of every known subcommand: <input>_<name>_<sha224 of input_name>.txt. */
  function QiimeTarget(input: string, name: string, host: Host): string {
    var key := input + "_" + name;
    key + "_" + host.sha224(key) + ".txt"
  }

  /** With fixed-length digests two targets are equal exactly when their sample_name keys are. */
  lemma QiimeTargetInjective(host: Host, i1: string, n1: string, i2: string, n2: string)
    requires FixedDigests(host)
    ensures QiimeTarget(i1, n1, host) == QiimeTarget(i2, n2, host) <==> i1 + "_" + n1 == i2 + "_" + n2
  {
    var k1 := i1 + "_" + n1;
    var k2 := i2 + "_" + n2;
    var t1 := QiimeTarget(i1, n1, host);
    var t2 := QiimeTarget(i2, n2, host);
    assert |host.sha224(k1)| == 56 && |host.sha224(k2)| == 56;
    if t1 == t2 {
      assert |t1| == |k1| + 61 && |t2| == |k2| + 61;
      assert t1[..|k1|] == k1;
      assert t2[..|k2|] == k2;
    }
  }

  /**
   * `Qiime2.make_target` with the `add_args_*` it calls, on the wrapper's
   * fields: a known subcommand names the checkpoint and appends the
   * absent defaults' lines, then the rewritten user arguments.
   */
  function QiimeMake(prev: Fields, name: string, input: string, args: seq<string>, kw: Kwargs, host: Host): Result<Fields> {
    var d :- QiimeDispatch(name);
    match d
    case None => Success(prev)
    case Some(q) =>
      var st :- QiimeFold(QiimeDefaults(q, input), args, kw.qiimeDir);
      Success(prev.(target := Some(QiimeTarget(input, name, host)), addArgs := prev.addArgs + st.missing + st.tmp))
  }

  /**
   * The arguments a known subcommand leaves: the earlier add_args, the
   * absent defaults' lines, then as many arguments as the user gave, each
   * rewritten only by the defaults that hit it.
   */
  lemma QiimeMakeArgs(prev: Fields, name: string, input: string, args: seq<string>, kw: Kwargs, host: Host)
    requires QiimeDispatch(name).Success? && QiimeDispatch(name).value.Some?
    requires QiimeMake(prev, name, input, args, kw, host).Success?
    ensures var q := QiimeDispatch(name).value.value;
      var defs := QiimeDefaults(q, input);
      var f := QiimeMake(prev, name, input, args, kw, host).value;
      var st := QiimeFold(defs, args, kw.qiimeDir).value;
      var n := |prev.addArgs| + |Absent(defs, Tokens(args))|;
      f.target == Some(QiimeTarget(input, name, host)) &&
      |f.addArgs| == n + |args| && f.addArgs[..|prev.addArgs|] == prev.addArgs &&
      f.addArgs[|prev.addArgs|..n] == st.missing &&
      (forall j :: 0 <= j < |args| ==> f.addArgs[n + j] == Rewrites(args[j], Hits(defs, args, j), OptStr(kw.qiimeDir)))
  {
    var q := QiimeDispatch(name).value.value;
    var defs := QiimeDefaults(q, input);
    FoldMissing(defs, args, kw.qiimeDir);
    FoldRewrites(defs, args, kw.qiimeDir);
    var st := QiimeFold(defs, args, kw.qiimeDir).value;
    var a := prev.addArgs + st.missing + st.tmp;
    assert a[..|prev.addArgs|] == prev.addArgs;
    assert a[|prev.addArgs|..|prev.addArgs| + |st.missing|] == st.missing;
  }

  /** `Qiime2.make_target` and the `add_args_*` it calls, updating the wrapper's fields in place. */
  method QiimeMakeTarget(f: SuffixFields, name: string, input: string, args: seq<string>, kw: Kwargs, host: Host)
    returns (r: Result<()>)
    modifies f
    ensures r.Success? <==> QiimeMake(old(f.State()), name, input, args, kw, host).Success?
    ensures r.Success? ==> f.State() == QiimeMake(old(f.State()), name, input, args, kw, host).value
    ensures r.Failure? ==> r.error == QiimeMake(old(f.State()), name, input, args, kw, host).error
  {
    var d := QiimeDispatch(name);
    if d.Failure? {
      return Failure(d.error);
    }
    if d.value.None? {
      return Success(());
    }
    f.target := Some(QiimeTarget(input, name, host));
    var u := UpdateQiimeArgs(f, QiimeDefaults(d.value.value, input), args, kw);
    if u.Failure? {
      return Failure(u.error);
    }
    f.addArgs := f.addArgs + u.value;
    r := Success(());
  }

  // ---------------------------------------------------------------------
  // The constructor
  // ---------------------------------------------------------------------

  const NoTarget: string := "AttributeError: 'Qiime2' object has no attribute 'target'"

  /**
   * `Qiime2(name, input, *args, **kwargs)` up to `setup_run`: the fields
   * `make_target` sets on the name as given, then the target check and the
   * log_dir lookup for stdout.
   */
  function QiimeNew(name: string, input: string, args: seq<string>, kw: Kwargs, host: Host): Result<Tools.Plan> {
    var f :- QiimeMake(StartFields(), name, input, args, kw, host);
    if f.target.None? then Failure(NoTarget)
    else if kw.logDir.None? then Failure("KeyError: 'log_dir'")
    else Success(QiimePlan(name, input, f, kw))
  }

  /** The rest of the constructor, once `make_target` has set the fields. */
  function QiimePlan(name: string, input: string, f: Fields, kw: Kwargs): Tools.Plan
    requires f.target.Some? && kw.logDir.Some?
  {
    var k := kw.(target := f.target, stdout := Some(PathJoin(kw.logDir.value, input + "_" + name + ".log")),
                 progId := Some(name));
    Tools.Plan(k, None, JoinSplitCmd(ProgNameClean(name)), None, Tools.ProfileUpdate(k, Tools.Profile(4000, 300, 1)),
      Success(Tools.Tail(f.addArgs, None)), "", None)
  }

  /**
   * `Qiime2(name, input, *args, **kwargs)`: the fields `make_target` sets,
   * then the wrapper object and the shared job_parms update. A failing
   * `make_target` or a missing log_dir raises before job_parms is touched.
   */
  method NewQiime2(name: string, input: string, args: seq<string>, kw: Kwargs, host: Host)
    returns (f: SuffixFields, w: Wrapper?, r: Result<()>)
    modifies kw.jobParms
    ensures fresh(f)
    ensures r.Success? <==>
      (QiimeNew(name, input, args, kw, host).Success? &&
       Tools.Run(QiimeNew(name, input, args, kw, host).value, input, host).Success?)
    ensures r.Success? ==> w != null && w.State() == Tools.Run(QiimeNew(name, input, args, kw, host).value, input, host).value
    ensures QiimeNew(name, input, args, kw, host).Failure? ==>
      r == Failure(QiimeNew(name, input, args, kw, host).error) && (kw.jobParms != null ==> unchanged(kw.jobParms))
    ensures QiimeNew(name, input, args, kw, host).Success? && kw.jobParms != null ==>
      kw.jobParms.entries == Tools.UpdatedParms(QiimeNew(name, input, args, kw, host).value, old(kw.jobParms.entries))
  {
    f := new SuffixFields();
    var m := QiimeMakeTarget(f, name, input, args, kw, host);
    if m.Failure? {
      return f, null, m;
    }
    if f.target.None? {
      return f, null, Failure(NoTarget);
    }
    if kw.logDir.None? {
      return f, null, Failure("KeyError: 'log_dir'");
    }
    var p := QiimePlan(name, input, f.State(), kw);
    w, r := Tools.Build(p, input, host);
  }

  /**
   * The constructor keeps the name as given for prog_id and the stdout
   * log, runs the round-stripped name split into words with add_args as
   * the only arguments, and by default writes mem 4000, time 300, ncpus 1;
   * a custom profile is the caller's.
   */
  lemma QiimeProfile(name: string, input: string, args: seq<string>, kw: Kwargs, host: Host)
    requires QiimeNew(name, input, args, kw, host).Success? && kw.jobParms != null
    ensures var p := QiimeNew(name, input, args, kw, host).value;
      var f := QiimeMake(StartFields(), name, input, args, kw, host).value;
      p.kw.progId == Some(name) && p.kw.target == f.target && f.target.Some? &&
      p.kw.stdout == Some(PathJoin(kw.logDir.value, input + "_" + name + ".log")) &&
      p.name == JoinSplitCmd(ProgNameClean(name)) &&
      p.tail == Success(Tools.Tail(f.addArgs, None)) &&
      (!IsCustom(kw) ==> p.update == Success(Tools.Profile(4000, 300, 1))) &&
      (IsCustom(kw) && kw.addJobParms.Some? ==> p.update == Success(kw.addJobParms.value))
  {
  }

  /** An unknown plugin, or an unknown tools subcommand, sets no target, so the constructor raises AttributeError. */
  lemma QiimeNoTarget(name: string, input: string, args: seq<string>, kw: Kwargs, host: Host)
    requires QiimeDispatch(name) == Success(None)
    ensures QiimeNew(name, input, args, kw, host) == Failure(NoTarget)
  {
  }
}
