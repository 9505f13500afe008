// The GATK tool family: `make_target` dispatches on the walker, resolves
// the suffixes, names the checkpoint and builds the walker's arguments
// and log file on the wrapper's fields; the constructor initialises the
// wrapper twice, the second time with the heap flag and "-T" inserted.
module GatkTools {
  import opened Wrappers
  import opened PyStr
  import opened Params
  import opened BaseWrappers
  import opened NewWrappers
  import Tools

  /** The walkers `make_target` knows. */
  datatype Walker = RealignerTargetCreator | IndelRealigner | BaseRecalibrator | PrintReads
    | HaplotypeCaller | VariantRecalibrator | AnalyzeCovariates

  /** The second '_'-field of the step name, as `make_target` compares it. */
  function WalkerName(c: Walker): string {
    match c
    case RealignerTargetCreator => "RealignerTargetCreator"
    case IndelRealigner => "IndelRealigner"
    case BaseRecalibrator => "BaseRecalibrator"
    case PrintReads => "PrintReads"
    case HaplotypeCaller => "HaplotypeCaller"
    case VariantRecalibrator => "VariantRecalibrator"
    case AnalyzeCovariates => "AnalyzeCovariates"
  }

  /** The `elif` chain of `make_target`: the walker a field names, if any. */
  function ParseWalker(t: string): (r: Option<Walker>)
    ensures r.Some? ==> WalkerName(r.value) == t
  {
    if t == "RealignerTargetCreator" then Some(RealignerTargetCreator)
    else if t == "IndelRealigner" then Some(IndelRealigner)
    else if t == "BaseRecalibrator" then Some(BaseRecalibrator)
    else if t == "PrintReads" then Some(PrintReads)
    else if t == "HaplotypeCaller" then Some(HaplotypeCaller)
    else if t == "VariantRecalibrator" then Some(VariantRecalibrator)
    else if t == "AnalyzeCovariates" then Some(AnalyzeCovariates)
    else None
  }

  /** Every walker is recognised by its own name. */
  lemma ParseWalkerName(c: Walker)
    ensures ParseWalker(WalkerName(c)) == Some(c)
  {
  }

  /** The default suffixes of a walker; VariantRecalibrator resolves none. */
  function GatkDefaults(c: Walker): Option<Suffixes> {
    match c
    case RealignerTargetCreator => Some(Suffixes(".dedup.rg.srtd.bam", "_realign_targets.intervals"))
    case IndelRealigner => Some(Suffixes(".dedup.rg.srtd.bam", ".dedup.rg.srtd.realigned.bam"))
    case BaseRecalibrator => Some(Suffixes(".dedup.rg.srtd.realigned.bam", "_recal_table.txt"))
    case PrintReads => Some(Suffixes(".dedup.rg.srtd.realigned.bam", ".gatk.recal.bam"))
    case HaplotypeCaller => Some(Suffixes(".gatk.recal.bam", ".GATK-HC.g.vcf"))
    case VariantRecalibrator => None
    case AnalyzeCovariates => Some(Suffixes("_recal_table.txt", "_recalibration_plots.pdf"))
  }

  /**
   * The checkpoint name of a walker with resolved suffixes: the base
   * class's rule on out_suffix, with 'post' in front of it for a
   * BaseRecalibrator run that reads a table back (`bqsr`).
   */
  function GatkTarget(c: Walker, name: string, input: string, s: Suffixes, bqsr: bool, host: Host): string {
    var nameStr := "_" + name + "_";
    if c.BaseRecalibrator? && bqsr then
      input + nameStr + "post" + s.outSuffix + "_" + host.sha224(input + nameStr + "post" + s.outSuffix) + ".txt"
    else
      input + nameStr + s.outSuffix + "_" + host.sha224(input + nameStr + s.outSuffix) + ".txt"
  }

  /** VariantRecalibrator's fixed checkpoint name, with a ".vcf" ending. */
  function RecalibratorTarget(name: string, input: string, host: Host): string {
    var nameStr := "_" + name + "_";
    input + nameStr + "mark_dup_picard." + host.sha224(input + nameStr + "mark_dup_picard.txt") + ".vcf"
  }

  /**
   * The target is the base class's on out_suffix, or on "post" + out_suffix;
   * with fixed-length digests the two BaseRecalibrator targets never coincide.
   */
  lemma GatkTargetIsBase(c: Walker, name: string, input: string, s: Suffixes, bqsr: bool, host: Host)
    ensures GatkTarget(c, name, input, s, bqsr, host) ==
      NewTarget(input, name, if c.BaseRecalibrator? && bqsr then "post" + s.outSuffix else s.outSuffix, host)
    ensures FixedDigests(host) && c.BaseRecalibrator? ==>
      GatkTarget(c, name, input, s, true, host) != GatkTarget(c, name, input, s, false, host)
  {
    var nameStr := "_" + name + "_";
    assert input + nameStr + "post" + s.outSuffix == input + nameStr + ("post" + s.outSuffix);
    if FixedDigests(host) {
      NewTargetInjective(host, input, name, "post" + s.outSuffix, input, name, s.outSuffix);
      assert |input + nameStr + ("post" + s.outSuffix)| != |input + nameStr + s.outSuffix|;
    }
  }

  /** `os.path.join(kwargs['log_dir'], input + "_" + kwargs['prog_id'] + '.log')`. */
  function GatkLog(input: string, progId: string, kw: Kwargs): (r: Result<string>)
    ensures r.Success? <==> kw.logDir.Some?
    ensures r.Success? ==> r.value == PathJoin(kw.logDir.value, input + "_" + progId + ".log")
  {
    if kw.logDir.None? then Failure("KeyError: 'log_dir'")
    else Success(PathJoin(kw.logDir.value, input + "_" + progId + ".log"))
  }

  /** `"-I " + os.path.join(kwargs.get('align_dir'), input + in_suffix)`. */
  function AlignedInput(input: string, s: Suffixes, kw: Kwargs): (r: Result<string>)
    ensures r.Success? <==> kw.alignDir.Some?
    ensures r.Success? ==> r.value == "-I " + PathJoin(kw.alignDir.value, input + s.inSuffix)
  {
    var i :- JoinOpt(kw.alignDir, input + s.inSuffix);
    Success("-I " + i)
  }

  /** The output flag: "-O" when the original name's first field is "gatk4", "-o" otherwise. */
  function OutFlag(progId: string): string {
    if Split(progId, '_')[0] == "gatk4" then "-O " else "-o "
  }

  /** `add_args_realigner_target_creator`. */
  function TargetCreatorArgs(input: string, args: seq<string>, s: Suffixes, kw: Kwargs): (r: Result<seq<string>>)
    ensures r.Success? <==> kw.alignDir.Some? && kw.gatkDir.Some? && kw.refFastaPath.Some?
    ensures r.Success? ==> |r.value| == 3 + |args| && r.value[3..] == args
  {
    var i :- AlignedInput(input, s, kw);
    var o :- JoinOpt(kw.gatkDir, input + s.outSuffix);
    var ref :- ConcatOpt("-R ", kw.refFastaPath);
    Success([i, "-o " + o, ref] + args)
  }

  /** `add_args_indel_realigner`: the intervals come from RealignerTargetCreator's default output. */
  function RealignerArgs(input: string, args: seq<string>, s: Suffixes, kw: Kwargs): (r: Result<seq<string>>)
    ensures r.Success? <==> kw.alignDir.Some? && kw.refFastaPath.Some? && kw.gatkDir.Some?
    ensures r.Success? ==> |r.value| == 4 + |args| && r.value[4..] == args
  {
    var i :- AlignedInput(input, s, kw);
    var ref :- ConcatOpt("-R ", kw.refFastaPath);
    var t :- JoinOpt(kw.gatkDir, input + "_realign_targets.intervals");
    Success([i, "-o " + PathJoin(kw.alignDir.value, input + s.outSuffix), ref, "-targetIntervals " + t] + args)
  }

  /**
   * BaseRecalibrator's arguments after the input and the reference: with
   * an exact "-BQSR" argument the first argument containing "-BQSR" is
   * dropped, the table out_suffix names is read back and the output goes
   * to "_post" + out_suffix.
   */
  function RecalTail(input: string, args: seq<string>, s: Suffixes, progId: string, gatk: string): seq<string> {
    if "-BQSR" in args then
      var i := FirstContaining(args, "-BQSR");
      ContainsSelf("-BQSR");
      RemoveAt(args, i.value)
        + ["-BQSR " + PathJoin(gatk, input + s.outSuffix), OutFlag(progId) + PathJoin(gatk, input + "_post" + s.outSuffix)]
    else args + [OutFlag(progId) + PathJoin(gatk, input + s.outSuffix)]
  }

  /** `add_args_base_recalibrator`. */
  function RecalibratorArgs(input: string, args: seq<string>, s: Suffixes, progId: string, kw: Kwargs): (r: Result<seq<string>>)
    ensures r.Success? <==> kw.alignDir.Some? && kw.refFastaPath.Some? && kw.gatkDir.Some?
  {
    var i :- AlignedInput(input, s, kw);
    var ref :- ConcatOpt("-R ", kw.refFastaPath);
    var g :- Present(kw.gatkDir);
    Success([i, ref] + RecalTail(input, args, s, progId, g))
  }

  /** `add_args_print_reads`: the user's arguments are not used. */
  function PrintReadsArgs(input: string, s: Suffixes, kw: Kwargs): (r: Result<seq<string>>)
    ensures r.Success? <==> kw.alignDir.Some? && kw.refFastaPath.Some? && kw.gatkDir.Some?
  {
    var i :- AlignedInput(input, s, kw);
    var ref :- ConcatOpt("-R ", kw.refFastaPath);
    var b :- JoinOpt(kw.gatkDir, input + "_recal_table.txt");
    Success([i, ref, "-BQSR " + b, "-o " + PathJoin(kw.alignDir.value, input + s.outSuffix)])
  }

  /** `add_args_haplotype_caller`: both branches of the gatk4 test write "-o". */
  function CallerArgs(input: string, args: seq<string>, s: Suffixes, kw: Kwargs): (r: Result<seq<string>>)
    ensures r.Success? <==> kw.alignDir.Some? && kw.refFastaPath.Some? && kw.gatkDir.Some?
    ensures r.Success? ==> |r.value| == 3 + |args| && r.value[2..2 + |args|] == args
  {
    var i :- AlignedInput(input, s, kw);
    var ref :- ConcatOpt("-R ", kw.refFastaPath);
    var o :- JoinOpt(kw.gatkDir, input + s.outSuffix);
    Success([i, ref] + args + ["-o " + o])
  }

  /** `add_args_analyze_covariates`: the tables before and after recalibration; no user arguments. */
  function CovariatesArgs(input: string, s: Suffixes, kw: Kwargs): (r: Result<seq<string>>)
    ensures r.Success? <==> kw.refFastaPath.Some? && kw.gatkDir.Some?
  {
    var ref :- ConcatOpt("-R ", kw.refFastaPath);
    var g :- Present(kw.gatkDir);
    Success([ref, "-before " + PathJoin(g, input + s.inSuffix), "-after " + PathJoin(g, input + "_post" + s.inSuffix),
             "-plots " + PathJoin(g, input + s.outSuffix)])
  }

  /** The walker's `add_args_*` (VariantRecalibrator has none). */
  function GatkArgs(c: Walker, input: string, args: seq<string>, s: Suffixes, progId: string, kw: Kwargs): (r: Result<seq<string>>)
    requires !c.VariantRecalibrator?
    ensures r.Success? <==>
      (kw.gatkDir.Some? && kw.refFastaPath.Some? && (!c.AnalyzeCovariates? ==> kw.alignDir.Some?))
  {
    match c
    case RealignerTargetCreator => TargetCreatorArgs(input, args, s, kw)
    case IndelRealigner => RealignerArgs(input, args, s, kw)
    case BaseRecalibrator => RecalibratorArgs(input, args, s, progId, kw)
    case PrintReads => PrintReadsArgs(input, s, kw)
    case HaplotypeCaller => CallerArgs(input, args, s, kw)
    case AnalyzeCovariates => CovariatesArgs(input, s, kw)
  }

  /**
   * `make_target` on the wrapper's fields (`progId` is the name before the
   * round was stripped): an unknown walker changes nothing,
   * VariantRecalibrator only names its target, and every other walker
   * resolves its suffixes, names its target and sets stdout and add_args.
   */
  function GatkMake(prev: Fields, name: string, progId: string, input: string, args: seq<string>, kw: Kwargs, host: Host)
    : Result<Fields>
    requires |Split(progId, '_')| > 0
  {
    var parts := Split(name, '_');
    if |parts| < 2 then Failure("IndexError: list index out of range")
    else
      match ParseWalker(parts[1])
      case None => Success(prev)
      case Some(c) =>
        if c.VariantRecalibrator? then Success(prev.(target := Some(RecalibratorTarget(name, input, host))))
        else
          var d := GatkDefaults(c).value;
          var s :- FileSuffix(kw, Some(d.inSuffix), Some(d.outSuffix));
          var log :- GatkLog(input, progId, kw);
          var a :- GatkArgs(c, input, args, s, progId, kw);
          Success(Fields(s.inSuffix, s.outSuffix, Some(GatkTarget(c, name, input, s, "-BQSR" in args, host)), a, Some(log)))
  }

  /** `Gatk.make_target` and the `add_args_*` it calls, updating the wrapper's fields in place. */
  method GatkMakeTarget(f: SuffixFields, name: string, progId: string, input: string, args: seq<string>, kw: Kwargs, host: Host)
    returns (r: Result<()>)
    requires |Split(progId, '_')| > 0
    modifies f
    ensures r.Success? <==> GatkMake(old(f.State()), name, progId, input, args, kw, host).Success?
    ensures r.Success? ==> f.State() == GatkMake(old(f.State()), name, progId, input, args, kw, host).value
    ensures r.Failure? ==> r.error == GatkMake(old(f.State()), name, progId, input, args, kw, host).error
  {
    var parts := Split(name, '_');
    if |parts| < 2 {
      return Failure("IndexError: list index out of range");
    }
    var c := ParseWalker(parts[1]);
    if c.None? {
      return Success(());
    }
    if c.value.VariantRecalibrator? {
      f.target := Some(RecalibratorTarget(name, input, host));
      return Success(());
    }
    var d := GatkDefaults(c.value).value;
    r := f.UpdateFileSuffix(Some(d.inSuffix), Some(d.outSuffix), kw);
    if r.Failure? {
      return;
    }
    f.target := Some(GatkTarget(c.value, name, input, Suffixes(f.inSuffix, f.outSuffix), "-BQSR" in args, host));
    var log := GatkLog(input, progId, kw);
    if log.Failure? {
      return Failure(log.error);
    }
    f.stdout := Some(log.value);
    f.ResetAddArgs();
    var a := GatkArgs(c.value, input, args, Suffixes(f.inSuffix, f.outSuffix), progId, kw);
    if a.Failure? {
      return Failure(a.error);
    }
    f.addArgs := a.value;
  }

  /**
   * BaseRecalibrator reading a table back: the first argument containing
   * "-BQSR" is removed and every other argument kept in order, the table
   * out_suffix names becomes the -BQSR input, and the output goes to
   * "_post" + out_suffix under "-O" for gatk4 and "-o" otherwise.
   */
  lemma RecalibrationRound(input: string, args: seq<string>, s: Suffixes, progId: string, gatk: string)
    requires "-BQSR" in args
    ensures exists i :: (0 <= i < |args| && Contains(args[i], "-BQSR") &&
      (forall k :: 0 <= k < i ==> !Contains(args[k], "-BQSR")) &&
      RecalTail(input, args, s, progId, gatk) ==
        args[..i] + args[i + 1..] +
        ["-BQSR " + PathJoin(gatk, input + s.outSuffix),
         (if Split(progId, '_')[0] == "gatk4" then "-O " else "-o ") + PathJoin(gatk, input + "_post" + s.outSuffix)])
  {
    ContainsSelf("-BQSR");
    var i := FirstContaining(args, "-BQSR");
    assert i.Some?;
  }

  /** Without "-BQSR" the user's arguments are kept whole and the table is written to out_suffix. */
  lemma RecalibrationFirst(input: string, args: seq<string>, s: Suffixes, progId: string, gatk: string)
    requires "-BQSR" !in args
    ensures RecalTail(input, args, s, progId, gatk) ==
      args + [(if Split(progId, '_')[0] == "gatk4" then "-O " else "-o ") + PathJoin(gatk, input + s.outSuffix)]
  {
  }

  /** PrintReads and AnalyzeCovariates build the same arguments whatever the user passes. */
  lemma FixedArgumentWalkers(c: Walker, input: string, args: seq<string>, args': seq<string>, s: Suffixes,
                             progId: string, kw: Kwargs)
    requires c.PrintReads? || c.AnalyzeCovariates?
    ensures GatkArgs(c, input, args, s, progId, kw) == GatkArgs(c, input, args', s, progId, kw)
  {
  }

  /**
   * Every walker that resolves suffixes logs to log_dir/<input>_<prog_id>.log,
   * and a missing log_dir raises KeyError once the suffixes are resolved.
   */
  lemma GatkStdout(prev: Fields, name: string, progId: string, input: string, args: seq<string>, kw: Kwargs, host: Host)
    requires |Split(progId, '_')| > 0
    requires |Split(name, '_')| >= 2 && ParseWalker(Split(name, '_')[1]).Some?
    requires !ParseWalker(Split(name, '_')[1]).value.VariantRecalibrator?
    ensures var c := ParseWalker(Split(name, '_')[1]).value;
      var d := GatkDefaults(c).value;
      var r := GatkMake(prev, name, progId, input, args, kw, host);
      (r.Success? ==> r.value.stdout == Some(PathJoin(kw.logDir.value, input + "_" + progId + ".log"))) &&
      (FileSuffix(kw, Some(d.inSuffix), Some(d.outSuffix)).Success? && kw.logDir.None? ==>
        r == Failure("KeyError: 'log_dir'"))
  {
  }

  /** The program name of the second `init`: the heap flag and "-T" after the first field unless it is "gatk4". */
  function GatkCommandName(parts: seq<string>, mem: string): string
    requires |parts| > 0
  {
    if parts[0] != "gatk4" then Tools.GatkProgram(parts, mem) else Join(" ", parts)
  }

  const NoTarget: string := "AttributeError: 'Gatk' object has no attribute 'target'"
  const NoStdout: string := "AttributeError: 'Gatk' object has no attribute 'stdout'"

  /**
   * `Gatk(name, input, *args, **kwargs)` up to `setup_run`: an unknown
   * walker leaves no target and VariantRecalibrator no stdout, and reading
   * either raises.
   */
  function GatkNew(name: string, input: string, args: seq<string>, kw: Kwargs, host: Host): Result<Tools.Plan> {
    var f :- GatkMake(StartFields(), ProgNameClean(name), name, input, args, kw, host);
    if f.target.None? then Failure(NoTarget)
    else if f.stdout.None? then Failure(NoStdout)
    else Success(GatkPlan(name, f, kw))
  }

  /** The rest of the constructor, once `make_target` has set the fields. */
  function GatkPlan(name: string, f: Fields, kw: Kwargs): Tools.Plan
    requires f.target.Some? && f.stdout.Some?
  {
    var k := kw.(progId := Some(name), target := f.target, stdout := f.stdout);
    var clean := ProgNameClean(name);
    Tools.Plan(k, Some(JoinSplitCmd(clean)), GatkCommandName(Split(clean, '_'), Tools.GatkMem(k)), None,
      Tools.ProfileUpdate(k, Tools.Profile(10000, 80, 4)), Success(Tools.Tail(f.addArgs, None)), "", None)
  }

  /**
   * `Gatk(name, input, *args, **kwargs)`: the fields `make_target` sets,
   * then the wrapper object and the shared job_parms update. A failing
   * `make_target` raises before job_parms is touched.
   */
  method NewGatk(name: string, input: string, args: seq<string>, kw: Kwargs, host: Host)
    returns (f: SuffixFields, w: Wrapper?, r: Result<()>)
    modifies kw.jobParms
    ensures fresh(f)
    ensures r.Success? <==>
      (GatkNew(name, input, args, kw, host).Success? &&
       Tools.Run(GatkNew(name, input, args, kw, host).value, input, host).Success?)
    ensures r.Success? ==> w != null && w.State() == Tools.Run(GatkNew(name, input, args, kw, host).value, input, host).value
    ensures GatkNew(name, input, args, kw, host).Failure? ==>
      r == Failure(GatkNew(name, input, args, kw, host).error) && (kw.jobParms != null ==> unchanged(kw.jobParms))
    ensures GatkNew(name, input, args, kw, host).Success? && kw.jobParms != null ==>
      kw.jobParms.entries == Tools.UpdatedParms(GatkNew(name, input, args, kw, host).value, old(kw.jobParms.entries))
  {
    f := new SuffixFields();
    var m := GatkMakeTarget(f, ProgNameClean(name), name, input, args, kw, host);
    if m.Failure? {
      return f, null, m;
    }
    if f.target.None? {
      return f, null, Failure(NoTarget);
    }
    if f.stdout.None? {
      return f, null, Failure(NoStdout);
    }
    var p := GatkPlan(name, f.State(), kw);
    w, r := Tools.Build(p, input, host);
  }

  /**
   * The constructor keeps the original name as prog_id and its log file as
   * stdout; it is first initialised with the stripped name's fields and
   * then, unless the first field is "gatk4", with the heap flag (10000M by
   * default) and "-T" after it. The default profile is 10000/80/4.
   */
  lemma GatkConstructor(name: string, input: string, args: seq<string>, kw: Kwargs, host: Host)
    requires GatkNew(name, input, args, kw, host).Success?
    ensures var p := GatkNew(name, input, args, kw, host).value;
      var parts := Split(ProgNameClean(name), '_');
      |parts| >= 2 && p.kw.progId == Some(name) && p.kw.stdout.Some? &&
      p.preName == Some(Join(" ", parts)) &&
      (parts[0] == "gatk4" ==> p.name == Join(" ", parts)) &&
      (parts[0] != "gatk4" ==> p.name == Join(" ", [parts[0], Tools.GatkMem(kw), "-T"] + parts[1..])) &&
      (!IsCustom(kw) ==> Tools.GatkMem(kw) == " -Xmx10000M") &&
      (!IsCustom(kw) && kw.jobParms != null ==> p.update == Success(Tools.Profile(10000, 80, 4)))
  {
  }

  /** An unknown walker, and VariantRecalibrator, make the constructor raise AttributeError. */
  lemma GatkMissingFields(name: string, input: string, args: seq<string>, kw: Kwargs, host: Host)
    requires |Split(ProgNameClean(name), '_')| >= 2
    ensures var w := ParseWalker(Split(ProgNameClean(name), '_')[1]);
      (w.None? ==> GatkNew(name, input, args, kw, host) == Failure(NoTarget)) &&
      (w == Some(VariantRecalibrator) ==> GatkNew(name, input, args, kw, host) == Failure(NoStdout))
  {
  }
}
