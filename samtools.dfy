// The samtools tool family: `make_target` insists on declared suffixes,
// dispatches on the view, sort and index subcommands, names the checkpoint
// file and builds each subcommand's arguments on the wrapper's fields; the
// constructor then points stdout at the log directory, strips the round,
// sets the resource profile (with thread and per-thread memory flags for a
// custom sort) and builds the command line through the shared plan.
module SamToolsFamily {
  import opened Wrappers
  import opened PyStr
  import opened Params
  import opened BaseWrappers
  import opened NewWrappers
  import Tools

  /** The subcommands `make_target` knows. */
  datatype SamSub = View | Sort | Index

  /** The second '_'-field of the step name, as `make_target` compares it. */
  function SamSubName(c: SamSub): string {
    match c
    case View => "view"
    case Sort => "sort"
    case Index => "index"
  }

  /** The `elif` chain of `make_target`: the subcommand a field names, if any. */
  function ParseSamSub(t: string): (r: Option<SamSub>)
    ensures r.Some? ==> SamSubName(r.value) == t
    ensures r.None? ==> t != "view" && t != "sort" && t != "index"
  {
    if t == "view" then Some(View)
    else if t == "sort" then Some(Sort)
    else if t == "index" then Some(Index)
    else None
  }

  /** Every subcommand is recognised by its own name. */
  lemma ParseSamSubName(c: SamSub)
    ensures ParseSamSub(SamSubName(c)) == Some(c)
  {
  }

  const SamNeedOutput: string := "Error1!!! you need to specify an output suffix"
  const SamNeedInput: string := "Error: You need to provide the input suffix\n"
  const NoTarget: string := "AttributeError: 'SamTools' object has no attribute 'target'"

  // ---------------------------------------------------------------------
  // make_target and the add_args_* methods
  // ---------------------------------------------------------------------

  /**
   * The suffixes `make_target` reads: only a "custom" suffix_type is
   * accepted; out_suffix is the declared output and in_suffix the declared
   * input, the literal "default" included.
   */
  function SamSuffixes(kw: Kwargs): (r: Result<Suffixes>)
    ensures r.Success? <==>
      (kw.suffixType == Some("custom") && kw.suffix.Some? &&
       "output" in kw.suffix.value && "input" in kw.suffix.value)
    ensures r.Success? ==>
      r.value.outSuffix == kw.suffix.value["output"] && r.value.inSuffix == kw.suffix.value["input"]
    ensures kw.suffixType.Some? && kw.suffixType.value != "custom" ==> r == Failure(SamNeedOutput)
  {
    if kw.suffixType.None? then Failure("KeyError: 'suffix_type'")
    else if kw.suffixType.value != "custom" then Failure(SamNeedOutput)
    else if kw.suffix.None? then Failure("KeyError: 'suffix'")
    else if "output" !in kw.suffix.value then Failure("KeyError: 'output'")
    else if "input" !in kw.suffix.value then Failure("KeyError: 'input'")
    else
      var m := kw.suffix.value;
      Success(Suffixes(if m["input"] != "default" then m["input"] else "default", m["output"]))
  }

  /** The in_suffix sort and index fall back to when none was declared. */
  function DefaultBam(inSuffix: string): (r: string)
    ensures r != "default"
    ensures inSuffix != "default" ==> r == inSuffix
  {
    if inSuffix == "default" then ".bam" else inSuffix
  }

  /** The align_dir every subcommand writes under; a missing one raises KeyError. */
  function AlignDir(kw: Kwargs): (r: Result<string>)
    ensures r.Success? <==> kw.alignDir.Some?
    ensures r.Success? ==> r.value == kw.alignDir.value
  {
    if kw.alignDir.None? then Failure("KeyError: 'align_dir'") else Success(kw.alignDir.value)
  }

  /**
   * `add_args_view`: an undeclared input suffix exits; otherwise the
   * user's arguments follow the earlier add_args in order, then "-o" and
   * the output path, then the input path, both under align_dir.
   */
  function ViewArgs(prev: seq<string>, input: string, args: seq<string>, s: Suffixes, kw: Kwargs): (r: Result<seq<string>>)
    ensures r.Success? <==> s.inSuffix != "default" && kw.alignDir.Some?
    ensures s.inSuffix == "default" ==> r == Failure(SamNeedInput)
    ensures r.Success? ==>
      |r.value| == |prev| + |args| + 3 && r.value[..|prev|] == prev && r.value[|prev|..|prev| + |args|] == args &&
      r.value[|prev| + |args|..] == ["-o", PathJoin(kw.alignDir.value, input + s.outSuffix),
                                     PathJoin(kw.alignDir.value, input + s.inSuffix)]
  {
    if s.inSuffix == "default" then Failure(SamNeedInput)
    else
      var a :- AlignDir(kw);
      var r := prev + args + ["-o", PathJoin(a, input + s.outSuffix)] + [PathJoin(a, input + s.inSuffix)];
      assert r[..|prev|] == prev;
      assert r[|prev|..|prev| + |args|] == args;
      Success(r)
  }

  /**
   * The temporary-directory rewrite of `add_args_sort`: the first argument
   * containing "-T" gets "_" + input appended, every other argument is
   * kept where it was.
   */
  function TmpDirRewrite(a: seq<string>, input: string): (r: seq<string>)
    ensures |r| == |a|
    ensures FirstContaining(a, "-T").None? ==> r == a
    ensures forall k :: 0 <= k < |a| ==>
      r[k] == (if FirstContaining(a, "-T") == Some(k) then a[k] + "_" + input else a[k])
  {
    match FirstContaining(a, "-T")
    case None => a
    case Some(i) => a[i := a[i] + "_" + input]
  }

  /**
   * The rewrite in terms of the arguments themselves: when some argument
   * contains "-T", exactly the first one gains the input's name and it
   * still carries the flag; otherwise nothing changes.
   */
  lemma SortTmpDir(a: seq<string>, input: string)
    ensures (exists k :: 0 <= k < |a| && Contains(a[k], "-T")) <==> TmpDirRewrite(a, input) != a
    ensures (exists k :: 0 <= k < |a| && Contains(a[k], "-T")) ==>
      (exists i :: (0 <= i < |a| && Contains(a[i], "-T") && (forall k :: 0 <= k < i ==> !Contains(a[k], "-T")) &&
                    TmpDirRewrite(a, input) == a[i := a[i] + "_" + input] &&
                    Contains(TmpDirRewrite(a, input)[i], "-T")))
  {
    var r := TmpDirRewrite(a, input);
    match FirstContaining(a, "-T") {
      case None =>
      case Some(i) =>
        assert |r[i]| == |a[i]| + 1 + |input|;
        assert r[i] != a[i];
        var j := ContainsWitness(a[i], "-T");
        assert r[i][j..j + 2] == a[i][j..j + 2];
        OccursAtContains(r[i], "-T", j);
    }
  }

  /**
   * `add_args_sort`: in_suffix falls back to ".bam"; the user's arguments
   * follow the earlier add_args, with the temporary-directory rewrite
   * applied; then "-o" and the output path, then the input path.
   */
  function SortArgs(prev: seq<string>, input: string, args: seq<string>, s: Suffixes, kw: Kwargs): (r: Result<seq<string>>)
    ensures r.Success? <==> kw.alignDir.Some?
    ensures r.Success? ==>
      |r.value| == |prev| + |args| + 3 &&
      r.value[..|prev| + |args|] == TmpDirRewrite(prev + args, input) &&
      r.value[|prev| + |args|..] == ["-o", PathJoin(kw.alignDir.value, input + s.outSuffix),
                                     PathJoin(kw.alignDir.value, input + DefaultBam(s.inSuffix))]
  {
    var t := TmpDirRewrite(prev + args, input);
    var a :- AlignDir(kw);
    var r := t + ["-o", PathJoin(a, input + s.outSuffix)] + [PathJoin(a, input + DefaultBam(s.inSuffix))];
    assert r[..|t|] == t;
    Success(r)
  }

  /** An argument that already picks an index format: it mentions "-b", "-c" or "-m". */
  predicate PicksFormat(a: string) {
    Contains(a, "-b") || Contains(a, "-c") || Contains(a, "-m")
  }

  /**
   * The format flag `add_args_index` evidently intends: "-b" goes in front
   * of the user's arguments exactly when none of them picks a format.
   */
  function IndexFlags(args: seq<string>): (r: seq<string>)
    ensures exists k :: 0 <= k < |r| && PicksFormat(r[k])
    ensures |r| >= |args| && r[|r| - |args|..] == args
    ensures |r| == |args| <==> (exists k :: 0 <= k < |args| && PicksFormat(args[k]))
  {
    if exists k :: 0 <= k < |args| && PicksFormat(args[k]) then args
    else
      ContainsSelf("-b");
      var r := ["-b"] + args;
      assert PicksFormat(r[0]);
      assert r[1..] == args;
      r
  }

  /**
   * The format flag as `add_args_index` writes it: the operand
   * `"-b" or ...` is always true, so "-b" goes in front exactly when there
   * is at least one user argument.
   */
  function IndexFlagsAsWritten(args: seq<string>): (r: seq<string>)
    ensures args != [] ==> |r| == |args| + 1 && r[0] == "-b" && r[1..] == args
    ensures args == [] ==> r == []
  {
    if |args| > 0 then ["-b"] + args else args
  }

  /**
   * Where the two differ: with no arguments the command as written picks
   * no format at all, and with a "-c" argument it is given "-b" besides.
   */
  lemma IndexFlagsDiffer(c: string)
    requires c == "-c"
    ensures IndexFlagsAsWritten([]) == [] && IndexFlags([]) == ["-b"]
    ensures IndexFlagsAsWritten([c]) == ["-b", c] && IndexFlags([c]) == [c]
    ensures !(exists k :: 0 <= k < |IndexFlagsAsWritten([])| && PicksFormat(IndexFlagsAsWritten([])[k]))
    ensures PicksFormat("-b") && PicksFormat(c)
  {
    ContainsSelf(c);
    ContainsSelf("-b");
    assert PicksFormat([c][0]);
  }

  /**
   * `add_args_index`: in_suffix falls back to ".bam"; the format flag and
   * the user's arguments follow the earlier add_args, then the input path,
   * then the output path unless out_suffix is "default".
   */
  function IndexArgs(prev: seq<string>, input: string, args: seq<string>, s: Suffixes, kw: Kwargs): (r: Result<seq<string>>)
    ensures r.Success? <==> kw.alignDir.Some?
    ensures r.Success? ==>
      var n := |prev| + |IndexFlagsAsWritten(args)|;
      |r.value| == n + (if s.outSuffix != "default" then 2 else 1) &&
      r.value[..n] == prev + IndexFlagsAsWritten(args) &&
      r.value[n] == PathJoin(kw.alignDir.value, input + DefaultBam(s.inSuffix)) &&
      (s.outSuffix != "default" ==> r.value[n + 1] == PathJoin(kw.alignDir.value, input + s.outSuffix))
  {
    var t := prev + IndexFlagsAsWritten(args);
    var a :- AlignDir(kw);
    var r := t + [PathJoin(a, input + DefaultBam(s.inSuffix))] +
      (if s.outSuffix != "default" then [PathJoin(a, input + s.outSuffix)] else []);
    assert r[..|t|] == t;
    Success(r)
  }

  /**
   * The checkpoint of `index`: like `NewTarget` on in_suffix + ".bai" as
   * declared (before the ".bam" fallback), with a '.' before the digest's '_'.
   */
  function IndexTarget(input: string, name: string, inSuffix: string, host: Host): string {
    var key := input + ("_" + name + "_") + inSuffix + ".bai";
    key + "." + "_" + host.sha224(key) + ".txt"
  }

  /** The index checkpoint is the common target with one '.' inserted after its key. */
  lemma IndexTargetIsBase(input: string, name: string, inSuffix: string, host: Host)
    ensures var key := input + ("_" + name + "_") + (inSuffix + ".bai");
      var t := NewTarget(input, name, inSuffix + ".bai", host);
      StartsWith(t, key) && IndexTarget(input, name, inSuffix, host) == key + "." + t[|key|..]
  {
    var key := input + ("_" + name + "_") + (inSuffix + ".bai");
    assert input + ("_" + name + "_") + inSuffix + ".bai" == key;
    var t := NewTarget(input, name, inSuffix + ".bai", host);
    assert t == key + ("_" + host.sha224(key) + ".txt");
    assert t[|key|..] == "_" + host.sha224(key) + ".txt";
  }

  /**
   * `SamTools.make_target` with the `add_args_*` it calls, on the
   * wrapper's fields: the suffixes are read first, then the subcommand is
   * dispatched on; an unknown one sets no target.
   */
  function SamMake(prev: Fields, name: string, input: string, args: seq<string>, kw: Kwargs, host: Host): Result<Fields> {
    var s :- SamSuffixes(kw);
    var parts := Split(name, '_');
    if |parts| < 2 then Failure("IndexError: list index out of range")
    else
      match ParseSamSub(parts[1])
      case None => Success(prev.(inSuffix := s.inSuffix, outSuffix := s.outSuffix))
      case Some(View) =>
        var a :- ViewArgs(prev.addArgs, input, args, s, kw);
        Success(Fields(s.inSuffix, s.outSuffix, Some(NewTarget(input, name, s.outSuffix, host)), a, prev.stdout))
      case Some(Sort) =>
        var a :- SortArgs(prev.addArgs, input, args, s, kw);
        Success(Fields(DefaultBam(s.inSuffix), s.outSuffix, Some(NewTarget(input, name, s.outSuffix, host)), a, prev.stdout))
      case Some(Index) =>
        var a :- IndexArgs(prev.addArgs, input, args, s, kw);
        Success(Fields(DefaultBam(s.inSuffix), s.outSuffix, Some(IndexTarget(input, name, s.inSuffix, host)), a, prev.stdout))
  }

  /** `SamTools.make_target` and the `add_args_*` it calls, updating the wrapper's fields in place. */
  method SamMakeTarget(f: SuffixFields, name: string, input: string, args: seq<string>, kw: Kwargs, host: Host)
    returns (r: Result<()>)
    modifies f
    ensures r.Success? <==> SamMake(old(f.State()), name, input, args, kw, host).Success?
    ensures r.Success? ==> f.State() == SamMake(old(f.State()), name, input, args, kw, host).value
    ensures r.Failure? ==> r.error == SamMake(old(f.State()), name, input, args, kw, host).error
  {
    var s := SamSuffixes(kw);
    if s.Failure? {
      return Failure(s.error);
    }
    f.outSuffix := s.value.outSuffix;
    f.inSuffix := s.value.inSuffix;
    var parts := Split(name, '_');
    if |parts| < 2 {
      return Failure("IndexError: list index out of range");
    }
    var c := ParseSamSub(parts[1]);
    if c.None? {
      return Success(());
    }
    if c.value.Index? {
      f.target := Some(IndexTarget(input, name, f.inSuffix, host));
    } else {
      f.target := Some(NewTarget(input, name, f.outSuffix, host));
    }
    if c.value.View? && f.inSuffix == "default" {
      return Failure(SamNeedInput);
    }
    f.inSuffix := DefaultBam(f.inSuffix);
    var a := AlignDir(kw);
    match c.value {
      case View =>
        f.addArgs := f.addArgs + args;
      case Sort =>
        f.addArgs := f.addArgs + args;
        var i := FirstContaining(f.addArgs, "-T");
        if i.Some? {
          f.addArgs := f.addArgs[i.value := f.addArgs[i.value] + "_" + input];
        }
      case Index =>
        f.addArgs := f.addArgs + IndexFlagsAsWritten(args);
    }
    if a.Failure? {
      return Failure(a.error);
    }
    if c.value.Index? {
      f.addArgs := f.addArgs + [PathJoin(a.value, input + f.inSuffix)];
      if f.outSuffix != "default" {
        f.addArgs := f.addArgs + [PathJoin(a.value, input + f.outSuffix)];
      }
    } else {
      f.addArgs := f.addArgs + ["-o", PathJoin(a.value, input + f.outSuffix)];
      f.addArgs := f.addArgs + [PathJoin(a.value, input + f.inSuffix)];
    }
    r := Success(());
  }

  /**
   * The checkpoint of each subcommand: view and sort name the common
   * target of the output suffix, index that of the declared input suffix
   * with ".bai"; the fields keep the declared suffixes, with the ".bam"
   * fallback for sort and index.
   */
  lemma SamTargets(prev: Fields, name: string, input: string, args: seq<string>, kw: Kwargs, host: Host)
    requires |Split(name, '_')| >= 2 && ParseSamSub(Split(name, '_')[1]).Some?
    requires SamMake(prev, name, input, args, kw, host).Success?
    ensures var c := ParseSamSub(Split(name, '_')[1]).value;
      var m := kw.suffix.value;
      var f := SamMake(prev, name, input, args, kw, host).value;
      kw.suffixType == Some("custom") && f.outSuffix == m["output"] &&
      f.inSuffix == (if c.View? then m["input"] else DefaultBam(m["input"])) &&
      (c.View? ==> m["input"] != "default") &&
      f.target == Some(if c.Index? then IndexTarget(input, name, m["input"], host) else NewTarget(input, name, m["output"], host))
  {
  }

  /** A subcommand outside view, sort and index sets no target, so the constructor raises AttributeError. */
  lemma SamUnknownSubcommand(name: string, input: string, args: seq<string>, kw: Kwargs, parms: map<string, Val>, host: Host)
    requires SamSuffixes(kw).Success?
    requires |Split(name, '_')| >= 2 && ParseSamSub(Split(name, '_')[1]).None?
    ensures SamNew(name, input, args, kw, parms, host) == Failure(NoTarget)
  {
  }

  // ---------------------------------------------------------------------
  // The constructor
  // ---------------------------------------------------------------------

  /** Python 2 `a / b` on integers: the quotient rounded towards negative infinity. */
  function FloorDiv(a: int, b: int): (q: int)
    requires b != 0
    ensures b > 0 ==> b * q <= a < b * q + b
    ensures b < 0 ==> b * q + b < a <= b * q
  {
    if b > 0 then a / b
    else
      var m := -b;
      var q := (-a) / m;
      assert m * q <= -a < m * q + m;
      q
  }

  /** The integer value of a configuration scalar in arithmetic (booleans count as 0 and 1). */
  function IntVal(v: Val): Option<int> {
    match v
    case Num(n) => Some(n)
    case Flag(b) => Some(if b then 1 else 0)
    case Text(_) => None
    case Null => None
  }

  /** `int(a / b)` on two configuration scalars: text and None raise TypeError, a zero divisor ZeroDivisionError. */
  function PyDiv(a: Val, b: Val): (r: Result<int>)
    ensures r.Success? <==> IntVal(a).Some? && IntVal(b).Some? && IntVal(b).value != 0
    ensures r.Success? ==> r.value == FloorDiv(IntVal(a).value, IntVal(b).value)
  {
    if IntVal(a).None? || IntVal(b).None? then Failure("TypeError: unsupported operand type(s) for /")
    else if IntVal(b).value == 0 then Failure("ZeroDivisionError: integer division or modulo by zero")
    else Success(FloorDiv(IntVal(a).value, IntVal(b).value))
  }

  /**
   * The thread and memory flags a custom `sort` adds after the profile
   * update: with ncpus given, ' -@ <ncpus>' and ' -m <mem / ncpus>M',
   * mem read from add_job_parms or, failing that, from the updated
   * job_parms (`parms` is job_parms before the update).
   */
  function SortThreads(clean: string, kw: Kwargs, parms: map<string, Val>): Result<seq<string>> {
    var parts := Split(clean, '_');
    if |parts| < 2 then Failure("IndexError: list index out of range")
    else if parts[1] != "sort" then Success([])
    else if kw.addJobParms.None? then Failure("AttributeError: 'NoneType' object has no attribute 'keys'")
    else
      var add := kw.addJobParms.value;
      if "ncpus" !in add then Success([])
      else
        var after := parms + add;
        var mem :- if "mem" in add then Success(add["mem"])
                   else if "mem" in after then Success(after["mem"])
                   else Failure("KeyError: 'mem'");
        var q :- PyDiv(mem, add["ncpus"]);
        Success([" -@ " + ValStr(add["ncpus"]), " -m " + IntToStr(q) + "M"])
  }

  /**
   * Both branches of the memory lookup read the same value: the flags are
   * the thread count and the updated job_parms' mem divided by it, rounded
   * down, and a missing mem or a zero thread count raises.
   */
  lemma SortThreadsMem(clean: string, kw: Kwargs, parms: map<string, Val>)
    requires |Split(clean, '_')| >= 2 && Split(clean, '_')[1] == "sort"
    requires kw.addJobParms.Some? && "ncpus" in kw.addJobParms.value
    ensures var add := kw.addJobParms.value;
      var after := parms + add;
      var n := add["ncpus"];
      SortThreads(clean, kw, parms).Success? <==>
        ("mem" in after && IntVal(after["mem"]).Some? && IntVal(n).Some? && IntVal(n).value != 0)
    ensures var add := kw.addJobParms.value;
      var after := parms + add;
      SortThreads(clean, kw, parms).Success? ==>
        SortThreads(clean, kw, parms).value ==
          [" -@ " + ValStr(add["ncpus"]),
           " -m " + IntToStr(FloorDiv(IntVal(after["mem"]).value, IntVal(add["ncpus"]).value)) + "M"]
  {
  }

  /** Outside a custom sort with ncpus no flag is added. */
  lemma SortThreadsNone(clean: string, kw: Kwargs, parms: map<string, Val>)
    requires |Split(clean, '_')| >= 2
    requires Split(clean, '_')[1] != "sort" || (kw.addJobParms.Some? && "ncpus" !in kw.addJobParms.value)
    ensures SortThreads(clean, kw, parms) == Success([])
  {
  }

  /** What the constructor appends after the profile update: the custom flags, then add_args. */
  function SamTail(clean: string, addArgs: seq<string>, kw: Kwargs, parms: map<string, Val>): Result<Tools.Tail> {
    if !IsCustom(kw) then Success(Tools.Tail(addArgs, None))
    else
      var t :- SortThreads(clean, kw, parms);
      Success(Tools.Tail(t + addArgs, None))
  }

  /**
   * `SamTools(name, input, *args, **kwargs)` up to `setup_run`: the fields
   * `make_target` sets on the name as given, then the target check and the
   * log_dir lookup for stdout. `parms` is job_parms before the call.
   */
  function SamNew(name: string, input: string, args: seq<string>, kw: Kwargs, parms: map<string, Val>, host: Host)
    : Result<Tools.Plan>
  {
    var f :- SamMake(StartFields(), name, input, args, kw, host);
    if f.target.None? then Failure(NoTarget)
    else if kw.logDir.None? then Failure("KeyError: 'log_dir'")
    else Success(SamPlan(name, input, f, kw, parms))
  }

  /** The rest of the constructor, once `make_target` has set the fields. */
  function SamPlan(name: string, input: string, f: Fields, kw: Kwargs, parms: map<string, Val>): Tools.Plan
    requires f.target.Some? && kw.logDir.Some?
  {
    var k := kw.(target := f.target, stdout := Some(PathJoin(kw.logDir.value, input + "_" + name + ".log")),
                 progId := Some(name));
    var clean := ProgNameClean(name);
    Tools.Plan(k, None, JoinSplitCmd(clean), None, Tools.ProfileUpdate(k, Tools.Profile(4000, 300, 1)),
      SamTail(clean, f.addArgs, k, parms), "", None)
  }

  /** The job_parms entries a constructor starts from (none when there is no dictionary). */
  function ParmsOf(j: JobParms?): map<string, Val>
    reads j
  {
    if j == null then map[] else j.entries
  }

  /**
   * `SamTools(name, input, *args, **kwargs)`: the fields `make_target`
   * sets, then the wrapper object and the shared job_parms update. A
   * failing `make_target` or a missing log_dir raises before job_parms is
   * touched.
   */
  method NewSamTools(name: string, input: string, args: seq<string>, kw: Kwargs, host: Host)
    returns (f: SuffixFields, w: Wrapper?, r: Result<()>)
    modifies kw.jobParms
    ensures fresh(f)
    ensures var p := SamNew(name, input, args, kw, old(ParmsOf(kw.jobParms)), host);
      r.Success? <==> (p.Success? && Tools.Run(p.value, input, host).Success?)
    ensures var p := SamNew(name, input, args, kw, old(ParmsOf(kw.jobParms)), host);
      r.Success? ==> w != null && w.State() == Tools.Run(p.value, input, host).value
    ensures var p := SamNew(name, input, args, kw, old(ParmsOf(kw.jobParms)), host);
      p.Failure? ==> r == Failure(p.error) && (kw.jobParms != null ==> unchanged(kw.jobParms))
    ensures var p := SamNew(name, input, args, kw, old(ParmsOf(kw.jobParms)), host);
      p.Success? && kw.jobParms != null ==> kw.jobParms.entries == Tools.UpdatedParms(p.value, old(kw.jobParms.entries))
  {
    var parms := ParmsOf(kw.jobParms);
    f := new SuffixFields();
    var m := SamMakeTarget(f, name, input, args, kw, host);
    if m.Failure? {
      return f, null, m;
    }
    if f.target.None? {
      return f, null, Failure(NoTarget);
    }
    if kw.logDir.None? {
      return f, null, Failure("KeyError: 'log_dir'");
    }
    var p := SamPlan(name, input, f.State(), kw, parms);
    w, r := Tools.Build(p, input, host);
  }

  /**
   * The constructor keeps the name as given for prog_id and the stdout
   * log, runs the round-stripped name split into words, and by default
   * writes mem 4000, time 300, ncpus 1 with add_args as the only arguments.
   */
  lemma SamDefaultProfile(name: string, input: string, args: seq<string>, kw: Kwargs, parms: map<string, Val>, host: Host)
    requires SamNew(name, input, args, kw, parms, host).Success?
    requires !IsCustom(kw) && kw.jobParms != null
    ensures var p := SamNew(name, input, args, kw, parms, host).value;
      var f := SamMake(StartFields(), name, input, args, kw, host).value;
      p.kw.progId == Some(name) && p.kw.target == f.target && f.target.Some? &&
      p.kw.stdout == Some(PathJoin(kw.logDir.value, input + "_" + name + ".log")) &&
      p.name == JoinSplitCmd(ProgNameClean(name)) &&
      p.update == Success(Tools.Profile(4000, 300, 1)) &&
      p.tail == Success(Tools.Tail(f.addArgs, None))
  {
  }

  /** A custom profile is the caller's, and the sort flags come before add_args. */
  lemma SamCustomProfile(name: string, input: string, args: seq<string>, kw: Kwargs, parms: map<string, Val>, host: Host)
    requires SamNew(name, input, args, kw, parms, host).Success?
    requires IsCustom(kw) && kw.jobParms != null && kw.addJobParms.Some?
    ensures var p := SamNew(name, input, args, kw, parms, host).value;
      var f := SamMake(StartFields(), name, input, args, kw, host).value;
      var t := SortThreads(ProgNameClean(name), kw, parms);
      p.update == Success(kw.addJobParms.value) &&
      (p.tail.Success? <==> t.Success?) &&
      (t.Success? ==> p.tail == Success(Tools.Tail(t.value + f.addArgs, None)))
  {
    var f := SamMake(StartFields(), name, input, args, kw, host).value;
    var p := SamPlan(name, input, f, kw, parms);
    assert SamNew(name, input, args, kw, parms, host).value == p;
    CustomPlan(name, input, f, kw, parms);
  }

  /** The plan's update and tail in custom mode, for any fields `make_target` set. */
  lemma CustomPlan(name: string, input: string, f: Fields, kw: Kwargs, parms: map<string, Val>)
    requires f.target.Some? && kw.logDir.Some?
    requires IsCustom(kw) && kw.jobParms != null && kw.addJobParms.Some?
    ensures var p := SamPlan(name, input, f, kw, parms);
      var t := SortThreads(ProgNameClean(name), kw, parms);
      p.update == Success(kw.addJobParms.value) &&
      (p.tail.Success? <==> t.Success?) &&
      (t.Success? ==> p.tail == Success(Tools.Tail(t.value + f.addArgs, None)))
  {
    var k := SamPlan(name, input, f, kw, parms).kw;
    assert k.addJobParms == kw.addJobParms && k.jobParmsType == kw.jobParmsType;
    SortThreadsKw(ProgNameClean(name), kw, k, parms);
  }

  /** The sort flags read only add_job_parms from the keyword arguments. */
  lemma SortThreadsKw(clean: string, kw: Kwargs, k: Kwargs, parms: map<string, Val>)
    requires k.addJobParms == kw.addJobParms
    ensures SortThreads(clean, k, parms) == SortThreads(clean, kw, parms)
  {
  }

  // ---------------------------------------------------------------------
  // The sort command line
  // ---------------------------------------------------------------------

  /** A word without the first character of `t`, or any one of its characters, does not contain `t`. */
  lemma Lacks(w: string, t: string, j: nat)
    requires j < |t| && t[j] !in w
    ensures !Contains(w, t)
  {
    forall i | 0 <= i <= |w| - |t| ensures !OccursAt(w, t, i) {
      assert w[i..i + |t|][j] == w[i + j];
    }
    ContainsIff(w, t);
  }

  /** Two words without the Xmx, -T and bqsr tags are cleaned to the words joined by '_'. */
  lemma NameCleanTwoWords(w1: string, w2: string)
    requires IsWord(w1) && IsWord(w2)
    requires !Contains(w1 + " " + w2, "Xmx") && !Contains(w1 + " " + w2, "-T") && !Contains(w1 + " " + w2, "bqsr")
    ensures |SplitWs(w1 + " " + w2)| == 2
    ensures NameClean(w1 + " " + w2) == Success(w1 + "_" + w2)
  {
    SplitWsSpace(w1, w2);
    SplitWsToken(w1);
    SplitWsToken(w2);
    var name := w1 + " " + w2;
    assert SplitWs(name) == [w1, w2];
    assert DropTagged(name, [w1, w2], "Xmx") == Success([w1, w2]);
    assert DropTagged(name, [w1, w2], "-T") == Success([w1, w2]);
    assert DropTagged(name, [w1, w2], "bqsr") == Success([w1, w2]);
    assert [w1, w2][1..] == [w2];
    assert Join("_", [w1, w2]) == w1 + "_" + w2;
  }

  /**
   * The run command of a plan whose name is two words: the stderr log is
   * named after the words joined by '_', whatever stderr says.
   */
  lemma TwoWordRun(p: Tools.Plan, input: string, host: Host, w1: string, w2: string)
    requires p.preName.None? && p.threadFlag.None? && p.second.None? && p.rename == ""
    requires p.update.Success? && p.tail.Success? && p.tail.value.addCommand.None?
    requires |SplitWs(p.name)| == 2 && NameClean(p.name) == Success(w1 + "_" + w2)
    ensures var e := PathJoin(InitDirs(p.kw, host).logDir, input + "_" + (w1 + "_" + w2) + "_" + "err.log");
      Tools.Run(p, input, host).Success? &&
      Tools.Run(p, input, host).value.runCommand ==
        Some(Join(" ", [p.name] + p.tail.value.args +
                       ["2>>" + e, StdoutRedirect(Redirects(p.kw.stdout, p.kw.stderr, p.kw.stdoutAppend), e, host)]))
  {
    var s := Tools.Started(p, input, host);
    StderrRules(s);
    var t := p.tail.value;
    var e := PathJoin(InitDirs(p.kw, host).logDir, input + "_" + (w1 + "_" + w2) + "_" + "err.log");
    var red := StdoutRedirect(Redirects(p.kw.stdout, p.kw.stderr, p.kw.stdoutAppend), e, host);
    assert [p.name] + ([] + t.args + ["2>>" + e, red]) == [p.name] + t.args + ["2>>" + e, red];
  }

  /** A two-field name without "round": its fields, its cleaned form and the program it runs. */
  lemma TwoFieldName(name: string, w1: string, w2: string)
    requires '_' !in w1 && '_' !in w2 && 'u' !in w1 && 'u' !in w2 && name == w1 + "_" + w2
    ensures Split(name, '_') == [w1, w2]
    ensures ProgNameClean(name) == name
    ensures JoinSplitCmd(name) == w1 + " " + w2
  {
    SplitConcat(w1, w2, '_');
    SplitNoSep(w1, '_');
    SplitNoSep(w2, '_');
    Lacks(name, "round", 2);
    assert [w1, w2][1..] == [w2];
    assert Join(" ", [w1, w2]) == w1 + " " + w2;
  }

  /** `make_target` of a sort step with no arguments: the output and input files, and the checkpoint. */
  lemma SortMake(name: string, input: string, kw: Kwargs, host: Host)
    requires |Split(name, '_')| >= 2 && ParseSamSub(Split(name, '_')[1]) == Some(Sort)
    requires SamSuffixes(kw).Success? && kw.alignDir.Some?
    ensures var al := kw.alignDir.value;
      var m := kw.suffix.value;
      SamMake(StartFields(), name, input, [], kw, host) ==
        Success(Fields(DefaultBam(m["input"]), m["output"], Some(NewTarget(input, name, m["output"], host)),
                       ["-o", PathJoin(al, input + m["output"]), PathJoin(al, input + DefaultBam(m["input"]))], None))
  {
    TmpDirRewriteEmpty(input);
    var s := SamSuffixes(kw).value;
    var a := SortArgs([], input, [], s, kw).value;
    assert a[..0] == [];
    assert a == a[..0] + a[0..];
  }

  /**
   * The fields of the plan for a sort step with no arguments outside
   * custom mode: the program is the two words of the name and the
   * arguments are the output and input files the suffixes name.
   */
  lemma SortShape(name: string, input: string, kw: Kwargs, parms: map<string, Val>, host: Host, w1: string, w2: string)
    requires '_' !in w1 && 'u' !in w1 && ParseSamSub(w2) == Some(Sort) && name == w1 + "_" + w2
    requires SamSuffixes(kw).Success?
    requires kw.alignDir.Some? && kw.logDir.Some? && kw.jobParms != null && !IsCustom(kw)
    ensures SamNew(name, input, [], kw, parms, host).Success?
    ensures var p := SamNew(name, input, [], kw, parms, host).value;
      var al := kw.alignDir.value;
      var m := kw.suffix.value;
      p.preName.None? && p.threadFlag.None? && p.second.None? && p.rename == "" &&
      p.update.Success? && p.name == w1 + " " + w2 && p.kw.stderr == kw.stderr &&
      p.kw.stdout == Some(PathJoin(kw.logDir.value, input + "_" + name + ".log")) &&
      p.kw.stdoutAppend == kw.stdoutAppend && p.kw.logDir == kw.logDir &&
      p.tail == Success(Tools.Tail(["-o", PathJoin(al, input + m["output"]), PathJoin(al, input + DefaultBam(m["input"]))], None))
  {
    TwoFieldName(name, w1, w2);
    SortMake(name, input, kw, host);
  }

  /** No argument, nothing to rewrite. */
  lemma TmpDirRewriteEmpty(input: string)
    ensures TmpDirRewrite([], input) == []
  {
  }

  /**
   * The command line of a two-word sort step with no arguments outside
   * custom mode: the program, "-o" and the output file, the input file,
   * the stderr log named after the step and stdout truncated to
   * log_dir/<input>_<name>.log.
   */
  lemma SortCommandWords(name: string, input: string, kw: Kwargs, parms: map<string, Val>, host: Host, w1: string, w2: string)
    requires '_' !in w1 && 'u' !in w1 && ParseSamSub(w2) == Some(Sort) && name == w1 + "_" + w2
    requires IsWord(w1) && IsWord(w2)
    requires !Contains(w1 + " " + w2, "Xmx") && !Contains(w1 + " " + w2, "-T") && !Contains(w1 + " " + w2, "bqsr")
    requires SamSuffixes(kw).Success?
    requires kw.alignDir.Some? && kw.logDir.Some? && kw.jobParms != null && !IsCustom(kw)
    ensures SamNew(name, input, [], kw, parms, host).Success?
    ensures var p := SamNew(name, input, [], kw, parms, host).value;
      var al := kw.alignDir.value;
      var lg := kw.logDir.value;
      var m := kw.suffix.value;
      var e := PathJoin(lg, input + "_" + name + "_" + "err.log");
      Tools.Run(p, input, host).Success? &&
      Tools.Run(p, input, host).value.runCommand ==
        Some(Join(" ", [w1 + " " + w2] + ["-o", PathJoin(al, input + m["output"]), PathJoin(al, input + DefaultBam(m["input"]))] +
                       ["2>>" + e, "1>" + AbsPath(host, PathJoin(lg, input + "_" + name + ".log"))]))
  {
    SortShape(name, input, kw, parms, host, w1, w2);
    var m := kw.suffix.value;
    var al := kw.alignDir.value;
    SortRun(SamNew(name, input, [], kw, parms, host).value, input, host, name, w1, w2, kw.logDir.value,
      PathJoin(al, input + m["output"]), PathJoin(al, input + DefaultBam(m["input"])));
  }

  /** The run command of a plan shaped like a sort step's, whatever produced it. */
  lemma SortRun(p: Tools.Plan, input: string, host: Host, name: string, w1: string, w2: string, lg: string,
                outFile: string, inFile: string)
    requires p.preName.None? && p.threadFlag.None? && p.second.None? && p.rename == "" && p.update.Success?
    requires p.name == w1 + " " + w2 && name == w1 + "_" + w2 && IsWord(w1) && IsWord(w2)
    requires !Contains(w1 + " " + w2, "Xmx") && !Contains(w1 + " " + w2, "-T") && !Contains(w1 + " " + w2, "bqsr")
    requires p.kw.stdout == Some(PathJoin(lg, input + "_" + name + ".log")) && p.kw.logDir == Some(lg)
    requires p.tail == Success(Tools.Tail(["-o", outFile, inFile], None))
    ensures var e := PathJoin(lg, input + "_" + name + "_" + "err.log");
      Tools.Run(p, input, host).Success? &&
      Tools.Run(p, input, host).value.runCommand ==
        Some(Join(" ", [w1 + " " + w2] + ["-o", outFile, inFile] +
                       ["2>>" + e, "1>" + AbsPath(host, PathJoin(lg, input + "_" + name + ".log"))]))
  {
    NameCleanTwoWords(w1, w2);
    TwoWordRun(p, input, host, w1, w2);
    var stdout := PathJoin(lg, input + "_" + name + ".log");
    PathJoinFacts(lg, input + "_" + name + ".log");
    var e := PathJoin(lg, input + "_" + name + "_" + "err.log");
    var red := StdoutRedirect(Redirects(p.kw.stdout, p.kw.stderr, p.kw.stdoutAppend), e, host);
    StdoutRules(Redirects(p.kw.stdout, p.kw.stderr, p.kw.stdoutAppend), e, host);
    assert red == "1>" + AbsPath(host, stdout);
  }

  /** The command line the unit test of "samtools_sort" expects, for any directories and suffixes. */
  lemma SortCommand(name: string, input: string, kw: Kwargs, parms: map<string, Val>, host: Host)
    requires name == "samtools_sort"
    requires SamSuffixes(kw).Success?
    requires kw.alignDir.Some? && kw.logDir.Some? && kw.jobParms != null && !IsCustom(kw)
    ensures SamNew(name, input, [], kw, parms, host).Success?
    ensures var p := SamNew(name, input, [], kw, parms, host).value;
      var al := kw.alignDir.value;
      var lg := kw.logDir.value;
      var m := kw.suffix.value;
      var e := PathJoin(lg, input + "_" + name + "_" + "err.log");
      Tools.Run(p, input, host).Success? &&
      Tools.Run(p, input, host).value.runCommand ==
        Some(Join(" ", ["samtools sort"] + ["-o", PathJoin(al, input + m["output"]), PathJoin(al, input + DefaultBam(m["input"]))] +
                       ["2>>" + e, "1>" + AbsPath(host, PathJoin(lg, input + "_" + name + ".log"))]))
  {
    var w1, w2 := "samtools", "sort";
    SamtoolsSortWords(name, w1, w2);
    SortCommandWords(name, input, kw, parms, host, w1, w2);
  }

  /** The words of "samtools_sort" meet the conditions of the two-word lemmas. */
  lemma SamtoolsSortWords(name: string, w1: string, w2: string)
    requires name == "samtools_sort" && w1 == "samtools" && w2 == "sort"
    ensures '_' !in w1 && 'u' !in w1 && ParseSamSub(w2) == Some(Sort) && name == w1 + "_" + w2
    ensures IsWord(w1) && IsWord(w2) && w1 + " " + w2 == "samtools sort"
    ensures !Contains(w1 + " " + w2, "Xmx") && !Contains(w1 + " " + w2, "-T") && !Contains(w1 + " " + w2, "bqsr")
  {
    NoTags(w1 + " " + w2);
  }

  /** A name without 'X', 'b' or '-' carries none of the tags `name_clean` drops. */
  lemma NoTags(n: string)
    requires 'X' !in n && 'b' !in n && '-' !in n
    ensures !Contains(n, "Xmx") && !Contains(n, "-T") && !Contains(n, "bqsr")
  {
    Lacks(n, "Xmx", 0);
    Lacks(n, "-T", 0);
    Lacks(n, "bqsr", 0);
  }
}
