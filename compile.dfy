// The step compiler of bioflows/definedworkflows/rnaseq/rnaseqworkflow.py:
// how each entry of `workflow_sequence` becomes a uniquely named step, with
// its option strings and its job parameters, and how repeated tools are
// told apart by their round.
module Compile {
  import opened Wrappers
  import opened PyStr
  import opened Params
  import opened Dicts
  import opened BaseWrappers

  /** A step's `job_params`: the text 'default', or a dictionary of overrides. */
  datatype JobParams = DefaultParams | CustomParams(m: map<string, Val>)

  /**
   * What a tool name maps to in one mapping of `workflow_sequence`: a
   * mapping with optional subcommand, options (in declaration order) and
   * job_params; a text (only 'default' is used); or any other YAML value.
   */
  datatype StepVal =
    | Mapping(subcommand: Option<string>, options: Option<seq<(string, OptVal)>>, jobParams: Option<JobParams>)
    | Literal(s: string)
    | OtherValue

  /** The compiled steps so far: `progs` (an OrderedDict), `progs_job_parms`, and `tool_prefix`. */
  datatype Compiled = Compiled(progs: seq<(string, seq<string>)>, jobParms: map<string, JobParams>, prefix: seq<string>)

  // ---------------------------------------------------------------------
  // find_command_rounds and the step names

  /** `find_command_rounds(key, prefix)`: `sum([key in S for S in prefix])`. */
  function Rounds(key: string, prefix: seq<string>): (r: nat)
    ensures r <= |prefix|
    decreases |prefix|
  {
    if prefix == [] then 0
    else Rounds(key, prefix[..|prefix| - 1]) + (if Contains(prefix[|prefix| - 1], key) then 1 else 0)
  }

  /** The positions of `prefix` whose entry contains `key`. */
  function Containing(key: string, prefix: seq<string>): set<nat> {
    set i: nat | i < |prefix| && Contains(prefix[i], key)
  }

  /** The round is the number of entries of the prefix that contain the key. */
  lemma {:induction false} RoundsCounts(key: string, prefix: seq<string>)
    ensures Rounds(key, prefix) == |Containing(key, prefix)|
    decreases |prefix|
  {
    if prefix != [] {
      var n := |prefix| - 1;
      var pre := prefix[..n];
      RoundsCounts(key, pre);
      assert forall i :: 0 <= i < n ==> pre[i] == prefix[i];
      if Contains(prefix[n], key) {
        assert Containing(key, prefix) == Containing(key, pre) + {n};
      } else {
        assert Containing(key, prefix) == Containing(key, pre);
      }
    }
  }

  /** Counting over two parts adds up. */
  lemma {:induction false} RoundsAppend(key: string, p: seq<string>, q: seq<string>)
    ensures Rounds(key, p + q) == Rounds(key, p) + Rounds(key, q)
    decreases |q|
  {
    if q == [] {
      assert p + q == p;
    } else {
      var n := |q| - 1;
      assert (p + q)[..|p + q| - 1] == p + q[..n];
      RoundsAppend(key, p, q[..n]);
    }
  }

  /** Appending the key itself raises its round by exactly one, so a compiled step's round is at least 1. */
  lemma RoundsOwn(key: string, prefix: seq<string>)
    ensures Rounds(key, prefix + [key]) == Rounds(key, prefix) + 1
  {
    ContainsSelf(key);
    assert (prefix + [key])[..|prefix|] == prefix;
  }

  /** A repeat of a base key gets a strictly higher round than any earlier occurrence. */
  lemma RepeatRoundsIncrease(key: string, p: seq<string>, q: seq<string>)
    ensures Rounds(key, p + [key]) < Rounds(key, p + [key] + q + [key])
  {
    assert p + [key] + q + [key] == (p + [key]) + (q + [key]);
    RoundsAppend(key, p + [key], q + [key]);
    RoundsOwn(key, q);
  }

  /** `find_command_rounds('fastqc', ['fastqc_1', 'gsnap', 'fastqc_2']) == 2`. */
  lemma RoundsExample(key: string, a: string, b: string, c: string)
    requires key == "fastqc" && a == "fastqc_1" && b == "gsnap" && c == "fastqc_2"
    ensures Rounds(key, [a, b, c]) == 2
  {
    assert StartsWith(a, key);
    assert StartsWith(c, key);
    assert !Contains(b, key) by {
      if Contains(b, key) {
        var i := ContainsWitness(b, key);
      }
    }
    assert [a, b, c][..2] == [a, b];
    assert [a, b][..1] == [a];
    assert [a][..0] == [];
    assert Rounds(key, [a]) == 1;
    assert Rounds(key, [a, b]) == 1;
  }

  /**
   * The step name: the base key, with "_" + "round" + "_" + N appended when
   * its round N exceeds 1 and some step was already compiled.
   */
  function Identity(base: string, round: nat, compiled: bool): string {
    if compiled && round > 1 then base + "_" + "round" + "_" + IntToStr(round) else base
  }

  /** Two different rounds of one base key give two different names once the later one is suffixed. */
  lemma IdentitiesDistinct(base: string, r1: nat, r2: nat, c1: bool)
    requires r1 < r2 && r2 > 1
    ensures Identity(base, r1, c1) != Identity(base, r2, true)
  {
    var s2 := "_" + "round" + "_" + IntToStr(r2);
    assert Identity(base, r2, true) == base + s2;
    if c1 && r1 > 1 {
      var s1 := "_" + "round" + "_" + IntToStr(r1);
      if base + s1 == base + s2 {
        assert s1 == (base + s1)[|base|..];
        assert s2 == (base + s2)[|base|..];
        assert IntToStr(r1) == s1[7..];
        assert IntToStr(r2) == s2[7..];
        IntToStrInjective(r1, r2);
      }
    } else {
      assert |base + s2| > |base|;
    }
  }

  /** `prog_name_clean` takes a suffixed name back to its base key. */
  lemma IdentityClean(base: string, round: nat, compiled: bool)
    requires forall k :: 0 <= k < |Split(base, '_')| ==> !Contains(Split(base, '_')[k], "round")
    ensures ProgNameClean(Identity(base, round, compiled)) == base
  {
    if compiled && round > 1 {
      ProgNameCleanRound(base, round);
    } else {
      JoinSplit(base, '_');
      if Contains(base, "round") {
        var k := SplitKeepsContains(base, '_', "round");
      }
    }
  }

  // ---------------------------------------------------------------------
  // Options

  /** One option: "flag value", one "flag value" per list element, or the bare flag for None. */
  function OptionEntry(flag: string, v: OptVal): seq<string> {
    match v
    case Scalar(x) => if x == Null then [flag] else [flag + " " + ValStr(x)]
    case ListOf(xs) => seq(|xs|, i requires 0 <= i < |xs| => flag + " " + ValStr(xs[i]))
    case NoValue => [flag]
  }

  /** The option strings of an `options` mapping, entry after entry. */
  function Options(opts: seq<(string, OptVal)>): seq<string>
    decreases |opts|
  {
    if opts == [] then []
    else Options(opts[..|opts| - 1]) + OptionEntry(opts[|opts| - 1].0, opts[|opts| - 1].1)
  }

  /** The last entry of a mapping renders after the others. */
  lemma OptionsLast(opts: seq<(string, OptVal)>)
    requires opts != []
    ensures Options(opts) == Options(opts[..|opts| - 1]) + OptionEntry(opts[|opts| - 1].0, opts[|opts| - 1].1)
  {
  }

  /** The options of two consecutive parts render one after the other: declaration order is kept. */
  lemma {:induction false} OptionsAppend(a: seq<(string, OptVal)>, b: seq<(string, OptVal)>)
    ensures Options(a + b) == Options(a) + Options(b)
    decreases |b|
  {
    if b == [] {
      assert a + b == a;
    } else {
      var n := |b| - 1;
      assert (a + b)[..|a + b| - 1] == a + b[..n];
      assert (a + b)[|a + b| - 1] == b[n];
      OptionsLast(a + b);
      OptionsLast(b);
      OptionsAppend(a, b[..n]);
      AppendAssoc(Options(a), Options(b[..n]), OptionEntry(b[n].0, b[n].1));
    }
  }

  /** Every rendered option starts with its flag: the scalar and list forms put one space between flag and value. */
  lemma OptionEntryShape(flag: string, v: OptVal)
    ensures forall s :: s in OptionEntry(flag, v) ==> StartsWith(s, flag)
    ensures v.ListOf? ==> |OptionEntry(flag, v)| == |v.items|
    ensures !v.ListOf? ==> |OptionEntry(flag, v)| == 1
  {
    forall s | s in OptionEntry(flag, v) ensures StartsWith(s, flag) {
      assert s[..|flag|] == flag;
    }
  }

  /** The option list of a mapping entry: `['']` without an `options` key. */
  function MappingOptions(v: StepVal): seq<string>
    requires v.Mapping?
  {
    if v.options.Some? then Options(v.options.value) else [""]
  }

  // ---------------------------------------------------------------------
  // parse_prog_info, entry by entry

  /** The entries that become steps: a mapping, or the text 'default'. */
  predicate Compiles(v: StepVal) {
    v.Mapping? || v == Literal("default")
  }

  /** The base key: the tool name, or tool + "_" + subcommand. */
  function BaseKey(k: string, v: StepVal): string {
    if v.Mapping? && v.subcommand.Some? then k + "_" + v.subcommand.value else k
  }

  /** The step name an entry compiles to, given what was compiled before it. */
  function EntryName(c: Compiled, k: string, v: StepVal): string {
    var base := BaseKey(k, v);
    Identity(base, Rounds(base, c.prefix + [base]), |c.progs| > 0)
  }

  /** One `(k, v)` of a mapping of `workflow_sequence`. */
  function CompileEntry(c: Compiled, k: string, v: StepVal): Compiled {
    if !Compiles(v) then c
    else
      var name := EntryName(c, k, v);
      var opts := if v.Mapping? then MappingOptions(v) else [""];
      var jp := if v.Mapping? then v.jobParams.UnwrapOr(DefaultParams) else DefaultParams;
      Compiled(Store(c.progs, name, opts), c.jobParms[name := jp], c.prefix + [BaseKey(k, v)])
  }

  /**
   * A step entry stores its option list and job parameters under its name
   * and adds its base key to the prefix, whose round for that key is then
   * one more than before; any other entry changes nothing.
   */
  lemma CompileEntryFacts(c: Compiled, k: string, v: StepVal)
    ensures !Compiles(v) ==> CompileEntry(c, k, v) == c
    ensures Compiles(v) ==> (
      var r := CompileEntry(c, k, v);
      var name := EntryName(c, k, v);
      && Get(r.progs, name) == Some(if v.Mapping? then MappingOptions(v) else [""])
      && (forall n :: n != name ==> Get(r.progs, n) == Get(c.progs, n))
      && r.jobParms == c.jobParms[name := if v.Mapping? then v.jobParams.UnwrapOr(DefaultParams) else DefaultParams]
      && r.prefix == c.prefix + [BaseKey(k, v)]
      && Rounds(BaseKey(k, v), r.prefix) == Rounds(BaseKey(k, v), c.prefix) + 1)
  {
    if Compiles(v) {
      var opts := if v.Mapping? then MappingOptions(v) else [""];
      StoreFacts(c.progs, EntryName(c, k, v), opts);
      RoundsOwn(BaseKey(k, v), c.prefix);
    }
  }

  /** The inner loop over one mapping's entries. */
  function CompileMapping(m: seq<(string, StepVal)>, c: Compiled): Compiled
    decreases |m|
  {
    if m == [] then c else CompileMapping(m[1..], CompileEntry(c, m[0].0, m[0].1))
  }

  /** The outer loop over the mappings of `workflow_sequence`. */
  function CompileAll(ws: seq<seq<(string, StepVal)>>, c: Compiled): Compiled
    decreases |ws|
  {
    if ws == [] then c else CompileAll(ws[1..], CompileMapping(ws[0], c))
  }

  /** Compiling never moves the first step that was stored. */
  lemma {:induction false} MappingKeepsHead(m: seq<(string, StepVal)>, c: Compiled)
    requires c.progs != []
    ensures CompileMapping(m, c).progs != [] && CompileMapping(m, c).progs[0].0 == c.progs[0].0
    decreases |m|
  {
    if m != [] {
      var c1 := CompileEntry(c, m[0].0, m[0].1);
      if Compiles(m[0].1) {
        StoreKeepsFirst(c.progs, EntryName(c, m[0].0, m[0].1), if m[0].1.Mapping? then MappingOptions(m[0].1) else [""]);
      }
      MappingKeepsHead(m[1..], c1);
    }
  }

  lemma {:induction false} AllKeepsHead(ws: seq<seq<(string, StepVal)>>, c: Compiled)
    requires c.progs != []
    ensures CompileAll(ws, c).progs != [] && CompileAll(ws, c).progs[0].0 == c.progs[0].0
    decreases |ws|
  {
    if ws != [] {
      MappingKeepsHead(ws[0], c);
      AllKeepsHead(ws[1..], CompileMapping(ws[0], c));
    }
  }

  /**
   * Starting from no steps, the first entry of the first mapping, when it is
   * a step, keeps its base key as name and stays the first stored step, so
   * after the final reversal it is the last one.
   */
  lemma FirstDeclaredStaysFirst(ws: seq<seq<(string, StepVal)>>, jp: map<string, JobParams>)
    requires ws != [] && ws[0] != [] && Compiles(ws[0][0].1)
    ensures var r := CompileAll(ws, Compiled([], jp, [])).progs;
      r != [] && r[0].0 == BaseKey(ws[0][0].0, ws[0][0].1)
      && Reverse(r)[|r| - 1].0 == BaseKey(ws[0][0].0, ws[0][0].1)
  {
    var c0 := Compiled([], jp, []);
    var e := ws[0][0];
    var c1 := CompileEntry(c0, e.0, e.1);
    assert EntryName(c0, e.0, e.1) == BaseKey(e.0, e.1);
    assert c1.progs[0].0 == BaseKey(e.0, e.1);
    MappingKeepsHead(ws[0][1..], c1);
    assert CompileMapping(ws[0], c0) == CompileMapping(ws[0][1..], c1);
    AllKeepsHead(ws[1..], CompileMapping(ws[0], c0));
  }
}
