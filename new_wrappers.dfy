// The newer wrapper base class BaseWrapperNew: input/output suffix
// resolution, default-argument merging, the checkpoint target built from
// the output suffix, and its `setup_run`. The suffix, target and add_args
// attributes live on a small object that the tool families (Picard, GATK,
// samtools, QIIME 2) update in place.
module NewWrappers {
  import opened Wrappers
  import opened PyStr
  import opened Params
  import opened BaseWrappers

  const NeedOutput: string := "Error!!! you need to specify an output suffix"
  const NeedInput: string := "Error!!! you need to specify an input suffix"
  const NeedBoth: string := "Error!!! you need to specify BOTH input  and output suffixes"

  /** The input and output file suffixes of a step. */
  datatype Suffixes = Suffixes(inSuffix: string, outSuffix: string)

  /**
   * One side of a custom suffix declaration: the declared value unless it
   * is "default", then the tool's default; a missing default exits.
   */
  function Declared(kw: Kwargs, side: string, dflt: Option<string>, err: string): (r: Result<string>)
    ensures r.Success? && kw.suffix.Some? && side in kw.suffix.value && kw.suffix.value[side] != "default" ==>
      r.value == kw.suffix.value[side]
  {
    if kw.suffix.None? then Failure("KeyError: 'suffix'")
    else if side !in kw.suffix.value then Failure("KeyError: '" + side + "'")
    else if kw.suffix.value[side] != "default" then Success(kw.suffix.value[side])
    else if dflt.Some? then Success(dflt.value)
    else Failure(err)
  }

  /**
   * `update_file_suffix`: outside "custom" mode both tool defaults are
   * taken and a missing one exits; in "custom" mode each side is resolved
   * by `Declared`, the output first.
   */
  function FileSuffix(kw: Kwargs, inDefault: Option<string>, outDefault: Option<string>): Result<Suffixes> {
    match kw.suffixType
    case None => Failure("KeyError: 'suffix_type'")
    case Some(t) =>
      if t != "custom" then
        if inDefault.Some? && outDefault.Some? then Success(Suffixes(inDefault.value, outDefault.value))
        else if inDefault.Some? then Failure(NeedOutput)
        else if outDefault.Some? then Failure(NeedInput)
        else Failure(NeedBoth)
      else
        var out :- Declared(kw, "output", outDefault, NeedOutput);
        var inSuffix :- Declared(kw, "input", inDefault, NeedInput);
        Success(Suffixes(inSuffix, out))
  }

  /** Outside custom mode the defaults are used exactly when both are given; otherwise the run exits naming the missing side. */
  lemma FileSuffixStandard(kw: Kwargs, inDefault: Option<string>, outDefault: Option<string>)
    requires kw.suffixType.Some? && kw.suffixType.value != "custom"
    ensures var r := FileSuffix(kw, inDefault, outDefault);
      (r.Success? <==> inDefault.Some? && outDefault.Some?) &&
      (r.Success? ==> r.value == Suffixes(inDefault.value, outDefault.value)) &&
      (inDefault.Some? && outDefault.None? ==> r == Failure(NeedOutput)) &&
      (inDefault.None? && outDefault.Some? ==> r == Failure(NeedInput)) &&
      (inDefault.None? && outDefault.None? ==> r == Failure(NeedBoth))
  {
  }

  /**
   * In custom mode each side is the declared value, or the default for
   * "default"; it fails exactly when a "default" side has no default, and
   * a missing output is reported before a missing input.
   */
  lemma FileSuffixCustom(kw: Kwargs, inDefault: Option<string>, outDefault: Option<string>)
    requires kw.suffixType == Some("custom") && kw.suffix.Some?
    requires "input" in kw.suffix.value && "output" in kw.suffix.value
    ensures var r := FileSuffix(kw, inDefault, outDefault);
      var o := kw.suffix.value["output"];
      var i := kw.suffix.value["input"];
      (r.Success? <==> (o != "default" || outDefault.Some?) && (i != "default" || inDefault.Some?)) &&
      (r.Success? ==> r.value.outSuffix == (if o != "default" then o else outDefault.value) &&
                      r.value.inSuffix == (if i != "default" then i else inDefault.value)) &&
      (o == "default" && outDefault.None? ==> r == Failure(NeedOutput)) &&
      (o != "default" || outDefault.Some? ==> (i == "default" && inDefault.None? ==> r == Failure(NeedInput)))
  {
  }

  /** The attributes `update_file_suffix`, `make_target` and the add_args methods set. */
  datatype Fields = Fields(inSuffix: string, outSuffix: string, target: Option<string>,
                           addArgs: seq<string>, stdout: Option<string>)

  /**
   * `make_target`: <input>_<name>_<out_suffix>_<sha224 of that>.txt, which
   * depends on nothing but the sample, the name and the output suffix.
   */
  function NewTarget(input: string, name: string, outSuffix: string, host: Host): string {
    var key := input + ("_" + name + "_") + outSuffix;
    key + "_" + host.sha224(key) + ".txt"
  }

  /** With fixed-length digests two targets are equal exactly when their sample/name/suffix keys are. */
  lemma NewTargetInjective(host: Host, i1: string, n1: string, o1: string, i2: string, n2: string, o2: string)
    requires FixedDigests(host)
    ensures NewTarget(i1, n1, o1, host) == NewTarget(i2, n2, o2, host) <==>
      i1 + ("_" + n1 + "_") + o1 == i2 + ("_" + n2 + "_") + o2
  {
    var k1 := i1 + ("_" + n1 + "_") + o1;
    var k2 := i2 + ("_" + n2 + "_") + o2;
    var t1 := NewTarget(i1, n1, o1, host);
    var t2 := NewTarget(i2, n2, o2, host);
    assert |host.sha224(k1)| == 56 && |host.sha224(k2)| == 56;
    if t1 == t2 {
      assert |t1| == |k1| + 61 && |t2| == |k2| + 61;
      assert t1[..|k1|] == k1;
      assert t2[..|k2|] == k2;
    }
  }

  /**
   * The checkpoint files of BaseWrapperNew's `__init__`: the same rule as
   * BaseWrapper's, under work_dir instead of cwd.
   */
  function NewCheckpoint(kw: Kwargs, host: Host): (c: Checkpoint)
    ensures c.luigiTarget == PathJoin3(kw.workDir.UnwrapOr(host.cwd), "checkpoints", kw.target.UnwrapOr("None"))
    ensures c.luigiLocalTarget.Some? <==> Truthy(kw.localTargets.UnwrapOr(Flag(true)))
    ensures c.luigiLocalTarget.Some? ==>
      c.luigiLocalTarget.value == PathJoin(kw.luigiLocalPath.UnwrapOr(DefaultLocalPath), kw.target.UnwrapOr("None"))
  {
    InitCheckpoint(BlankConf().ckpt, kw.workDir.UnwrapOr(host.cwd), kw)
  }

  /** The new checkpoint is BaseWrapper's with work_dir in the place of cwd. */
  lemma NewCheckpointIsBase(kw: Kwargs, host: Host)
    ensures NewCheckpoint(kw, host) == InitCheckpoint(BlankConf().ckpt, kw.workDir.UnwrapOr(host.cwd), kw)
    ensures kw.workDir == kw.cwd ==>
      NewCheckpoint(kw, host) == InitState(Blank(""), "", kw, host).conf.ckpt
  {
  }

  /**
   * The fields a fresh Picard, Gatk, SamTools or Qiime2 object starts
   * `make_target` from. Those classes set none of these attributes, so a
   * target or stdout never assigned is absent (reading it raises
   * AttributeError); the suffixes and add_args start empty, and every path
   * assigns them before they are read.
   */
  function StartFields(): Fields {
    Fields("", "", None, [], None)
  }

  /** The attributes as a wrapper object holds them, updated in place. */
  class SuffixFields {
    var inSuffix: string
    var outSuffix: string
    var target: Option<string>
    var addArgs: seq<string>
    var stdout: Option<string>

    function State(): Fields
      reads this
    {
      Fields(inSuffix, outSuffix, target, addArgs, stdout)
    }

    /** A fresh family object: empty suffixes and add_args; no target or stdout attribute yet. */
    constructor ()
      ensures State() == StartFields()
    {
      inSuffix, outSuffix, target, addArgs, stdout := "", "", None, [], None;
    }

    /** `update_file_suffix`; a failure stands for the error message and exit. */
    method UpdateFileSuffix(inDefault: Option<string>, outDefault: Option<string>, kw: Kwargs) returns (r: Result<()>)
      modifies this
      ensures r.Success? <==> FileSuffix(kw, inDefault, outDefault).Success?
      ensures r.Success? ==> State() == old(State()).(inSuffix := FileSuffix(kw, inDefault, outDefault).value.inSuffix,
                                                     outSuffix := FileSuffix(kw, inDefault, outDefault).value.outSuffix)
      ensures r.Failure? ==> r.error == FileSuffix(kw, inDefault, outDefault).error &&
                             target == old(target) && addArgs == old(addArgs) && stdout == old(stdout)
    {
      if kw.suffixType.None? {
        return Failure("KeyError: 'suffix_type'");
      }
      if kw.suffixType.value != "custom" {
        if inDefault.Some? && outDefault.Some? {
          inSuffix := inDefault.value;
          outSuffix := outDefault.value;
        } else if inDefault.Some? {
          return Failure(NeedOutput);
        } else if outDefault.Some? {
          return Failure(NeedInput);
        } else {
          return Failure(NeedBoth);
        }
      } else {
        var out := Declared(kw, "output", outDefault, NeedOutput);
        if out.Failure? {
          return Failure(out.error);
        }
        outSuffix := out.value;
        var inS := Declared(kw, "input", inDefault, NeedInput);
        if inS.Failure? {
          return Failure(inS.error);
        }
        inSuffix := inS.value;
      }
      r := Success(());
    }

    /** `reset_add_args`. */
    method ResetAddArgs()
      modifies this
      ensures State() == old(State()).(addArgs := [])
    {
      addArgs := [];
    }

    /** BaseWrapperNew's `make_target`: only the target changes. */
    method MakeTarget(name: string, input: string, host: Host)
      modifies this
      ensures State() == old(State()).(target := Some(NewTarget(input, name, old(outSuffix), host)))
    {
      var nameStr := "_" + name + "_";
      target := Some(input + nameStr + outSuffix + "_" + host.sha224(input + nameStr + outSuffix) + ".txt");
    }
  }

  /** `' '.join([k, str(v)])` for one default option. */
  function DefaultText(d: (string, Val)): string {
    d.0 + " " + ValStr(d.1)
  }

  /** Some element of the list does not contain the text. */
  predicate SomeLacks(xs: seq<string>, t: string) {
    exists a :: a in xs && !Contains(a, t)
  }

  /**
   * The argument list `update_default_args` builds: each default, in
   * table order, is appended when some element of the list built so far
   * does not contain its text.
   */
  function MergeDefaults(tmp: seq<string>, defaults: seq<(string, Val)>): seq<string>
    decreases |defaults|
  {
    if defaults == [] then tmp
    else
      var t := DefaultText(defaults[0]);
      MergeDefaults(if SomeLacks(tmp, t) then tmp + [t] else tmp, defaults[1..])
  }

  /** `update_default_args`: the user's arguments and the appended defaults, joined by spaces. */
  method UpdateDefaultArgs(defaults: seq<(string, Val)>, args: seq<string>) returns (r: string)
    ensures r == Join(" ", MergeDefaults(args, defaults))
  {
    var tmp := args;
    var i := 0;
    while i < |defaults|
      invariant 0 <= i <= |defaults|
      invariant MergeDefaults(tmp, defaults[i..]) == MergeDefaults(args, defaults)
    {
      var t := DefaultText(defaults[i]);
      assert defaults[i..][1..] == defaults[i + 1..];
      if exists a :: a in tmp && !Contains(a, t) {
        tmp := tmp + [t];
      }
      i := i + 1;
    }
    assert defaults[i..] == [];
    r := Join(" ", tmp);
  }

  /** No user arguments: nothing is ever appended, since `any` over an empty list is false. */
  lemma {:induction false} MergeNoArgs(defaults: seq<(string, Val)>)
    ensures MergeDefaults([], defaults) == []
    decreases |defaults|
  {
    if defaults != [] {
      MergeNoArgs(defaults[1..]);
    }
  }

  /** The user's arguments come first, unchanged, and every later element is a default's text. */
  lemma {:induction false} MergeKeepsArgs(tmp: seq<string>, defaults: seq<(string, Val)>)
    ensures var m := MergeDefaults(tmp, defaults);
      |tmp| <= |m| <= |tmp| + |defaults| && m[..|tmp|] == tmp &&
      forall j :: |tmp| <= j < |m| ==> exists d :: d in defaults && m[j] == DefaultText(d)
    decreases |defaults|
  {
    if defaults != [] {
      var t := DefaultText(defaults[0]);
      var next := if SomeLacks(tmp, t) then tmp + [t] else tmp;
      MergeKeepsArgs(next, defaults[1..]);
      var m := MergeDefaults(tmp, defaults);
      assert m == MergeDefaults(next, defaults[1..]);
      assert m[..|next|] == next;
      assert m[..|tmp|] == next[..|tmp|];
      forall j | |tmp| <= j < |m|
        ensures exists d :: d in defaults && m[j] == DefaultText(d)
      {
        if j < |next| {
          assert m[j] == t && defaults[0] in defaults;
        } else {
          var d :| d in defaults[1..] && m[j] == DefaultText(d);
          assert d in defaults;
        }
      }
    }
  }

  /** The texts of a defaults table, in order. */
  function Texts(defaults: seq<(string, Val)>): (r: seq<string>)
    ensures |r| == |defaults|
  {
    if defaults == [] then [] else [DefaultText(defaults[0])] + Texts(defaults[1..])
  }

  /**
   * One user argument containing none of the default texts makes every
   * default appended: the check asks for SOME element lacking the text,
   * even when another argument is exactly that default.
   */
  lemma {:induction false} MergeAllWhenOneLacks(tmp: seq<string>, defaults: seq<(string, Val)>, a: string)
    requires a in tmp
    requires forall d :: d in defaults ==> !Contains(a, DefaultText(d))
    ensures MergeDefaults(tmp, defaults) == tmp + Texts(defaults)
    decreases |defaults|
  {
    if defaults != [] {
      var t := DefaultText(defaults[0]);
      assert defaults[0] in defaults;
      assert SomeLacks(tmp, t);
      MergeLacksStep(tmp, defaults);
      forall d | d in defaults[1..] ensures !Contains(a, DefaultText(d)) {
        assert d in defaults;
      }
      assert a in tmp + [t];
      MergeAllWhenOneLacks(tmp + [t], defaults[1..], a);
      TextsAfter(tmp, defaults);
    }
  }

  /** A default some element lacks is appended before the rest are merged. */
  lemma MergeLacksStep(tmp: seq<string>, defaults: seq<(string, Val)>)
    requires defaults != [] && SomeLacks(tmp, DefaultText(defaults[0]))
    ensures MergeDefaults(tmp, defaults) == MergeDefaults(tmp + [DefaultText(defaults[0])], defaults[1..])
  {
  }

  /** Appending the first text, then the others, appends them all. */
  lemma TextsAfter(tmp: seq<string>, defaults: seq<(string, Val)>)
    requires defaults != []
    ensures tmp + [DefaultText(defaults[0])] + Texts(defaults[1..]) == tmp + Texts(defaults)
  {
    AppendAssoc(tmp, [DefaultText(defaults[0])], Texts(defaults[1..]));
  }

  /** When every user argument already contains every default text, nothing is appended. */
  lemma {:induction false} MergeNoneWhenAllContain(tmp: seq<string>, defaults: seq<(string, Val)>)
    requires forall a, d :: a in tmp && d in defaults ==> Contains(a, DefaultText(d))
    ensures MergeDefaults(tmp, defaults) == tmp
    decreases |defaults|
  {
    if defaults != [] {
      assert defaults[0] in defaults;
      assert !SomeLacks(tmp, DefaultText(defaults[0]));
      MergeNoneWhenAllContain(tmp, defaults[1..]);
    }
  }

  /**
   * BaseWrapperNew's `setup_run` as written: it calls `chain`, which the
   * module never imports, so every call raises.
   */
  function NewSetupRunAsWritten(cmd: Option<seq<string>>, args: seq<string>, addCommand: Option<string>): Result<string> {
    Failure("NameError: global name 'chain' is not defined")
  }

  /** No input lets the as-written `setup_run` produce a command line. */
  lemma ChainNotImported(cmd: seq<string>, args: seq<string>, addCommand: Option<string>)
    ensures NewSetupRunAsWritten(Some(cmd), args, addCommand).Failure?
  {
  }

  /**
   * `setup_run` with `chain` imported: the command words then the
   * arguments, joined by spaces, then "; " and the extra command; a command
   * never set up (None) cannot be iterated.
   */
  function NewSetupRun(cmd: Option<seq<string>>, args: seq<string>, addCommand: Option<string>): Result<string> {
    match cmd
    case None => Failure("TypeError: 'NoneType' object is not iterable")
    case Some(c) =>
      var line := Join(" ", c + args);
      Success(if addCommand.Some? then line + "; " + addCommand.value else line)
  }

  /**
   * The corrected `setup_run` is BaseWrapper's without the redirects: on
   * the arguments BaseWrapper's version ends with, it builds the same
   * command line.
   */
  lemma NewSetupRunIsBase(s: WState, addCommand: Option<string>, host: Host)
    requires SetupRunState(s, addCommand, host).Success?
    ensures var r := SetupRunState(s, addCommand, host).value;
      NewSetupRun(Some(s.cmd), r.args, addCommand) == Success(r.runCommand.value)
  {
  }
}
