// What the per-tool constructors of bioflows/bioflowsutils/wrappers.py
// promise: the resource profile rule, checkpoint targets that depend on
// the sample alone, the thread arguments, GATK's double `init`, and the
// command lines the wrapper tests expect.
module ToolFacts {
  import opened Wrappers
  import opened PyStr
  import opened Params
  import opened BaseWrappers
  import opened Tools

  // ---------------------------------------------------------------------
  // The resource profile rule
  // ---------------------------------------------------------------------

  /** What a plan that follows the profile rule leaves in job_parms. */
  lemma FitsParms(p: Plan, t: Tool, kw: Kwargs, input: string, host: Host, e: map<string, Val>)
    requires Fits(p, t, kw)
    ensures kw.jobParms != null && !IsCustom(kw) ==> UpdatedParms(p, e) == e + DefaultProfile(t)
    ensures kw.jobParms != null && IsCustom(kw) && kw.addJobParms.Some? ==> UpdatedParms(p, e) == e + kw.addJobParms.value
    ensures kw.jobParms == null || (IsCustom(kw) && kw.addJobParms.None?) ==> UpdatedParms(p, e) == e && Run(p, input, host).Failure?
  {
  }

  /**
   * The job_parms entries after a constructor ran on them: the defaults or
   * the custom values written over the old entries, or the old entries
   * when the update raised.
   */
  lemma ToolParmsAfter(t: Tool, name: string, input: string, args: seq<string>, kw: Kwargs, host: Host,
                       e: map<string, Val>)
    requires ToolPlan(t, name, input, args, kw, host).Success? && t != BedtoolsCounts
    ensures var p := ToolPlan(t, name, input, args, kw, host).value;
      (kw.jobParms != null && !IsCustom(kw) ==> UpdatedParms(p, e) == e + DefaultProfile(t)) &&
      (kw.jobParms != null && IsCustom(kw) && kw.addJobParms.Some? ==> UpdatedParms(p, e) == e + kw.addJobParms.value) &&
      (kw.jobParms == null || (IsCustom(kw) && kw.addJobParms.None?) ==> UpdatedParms(p, e) == e && Run(p, input, host).Failure?)
  {
    var p := ToolPlan(t, name, input, args, kw, host).value;
    FitsParms(p, t, kw, input, host, e);
  }

  // ---------------------------------------------------------------------
  // Checkpoint targets
  // ---------------------------------------------------------------------

  /**
   * Two runs of one tool on one sample get the same checkpoint target,
   * whatever their other arguments and kwargs, for every tool that sets
   * its target from the sample alone.
   */
  lemma TargetOfSample(t: Tool, name: string, input: string, a1: seq<string>, a2: seq<string>,
                       k1: Kwargs, k2: Kwargs, host: Host)
    requires ToolPlan(t, name, input, a1, k1, host).Success? && ToolPlan(t, name, input, a2, k2, host).Success?
    requires SampleTarget(t, input, host).Some?
    ensures ToolPlan(t, name, input, a1, k1, host).value.kw.target == ToolPlan(t, name, input, a2, k2, host).value.kw.target
  {
    SampleTargetRule(ToolPlan(t, name, input, a1, k1, host).value, t, name, input, a1, k1, host);
    SampleTargetRule(ToolPlan(t, name, input, a2, k2, host).value, t, name, input, a2, k2, host);
  }

  /** A tool whose target comes from the sample sets exactly that target. */
  lemma SampleTargetRule(p: Plan, t: Tool, name: string, input: string, args: seq<string>, kw: Kwargs, host: Host)
    requires TargetRule(p, t, name, input, args, kw, host) && SampleTarget(t, input, host).Some?
    ensures p.kw.target == SampleTarget(t, input, host)
  {
  }

  /** Exactly FastQC, Trimmomatic, Picard and GATK set a target that is not the sample's own. */
  lemma SampleTargetTools(t: Tool, input: string, host: Host)
    ensures SampleTarget(t, input, host).None? <==> t in {FastQC, Trimmomatic, Picard, Gatk}
  {
  }

  /** Trimmomatic sets no target: the caller's is kept. */
  lemma TrimmomaticTarget(name: string, input: string, args: seq<string>, kw: Kwargs, host: Host)
    ensures TrimmomaticPlan(name, input, args, kw, host).kw.target == kw.target
  {
  }

  /**
   * The checkpoint files of a finished wrapper: <cwd>/checkpoints/<target>
   * and, with local targets on, <luigi_local_path>/<target>.
   */
  lemma RunCheckpoint(p: Plan, input: string, host: Host)
    requires Run(p, input, host).Success?
    ensures var c := Run(p, input, host).value.conf;
      var tgt := p.kw.target.UnwrapOr("None");
      c.ckpt.luigiTarget == PathJoin3(InitDirs(p.kw, host).cwd, "checkpoints", tgt) &&
      (Truthy(p.kw.localTargets.UnwrapOr(Flag(true))) ==>
        c.ckpt.luigiLocalTarget == Some(PathJoin(p.kw.luigiLocalPath.UnwrapOr(DefaultLocalPath), tgt)))
  {
    var s := Started(p, input, host);
    var t := p.tail.value;
    var s2 := s.(args := s.args + t.args);
    SetupRunKeeps(s2, t.addCommand, host);
    var s3 := SetupRunState(s2, t.addCommand, host).value;
    if p.second.Some? {
      var u := InitState(s3, p.name, p.kw, host);
      SetupRunKeeps(u.(args := u.args + p.second.value), None, host);
    }
  }

  // ---------------------------------------------------------------------
  // Threads
  // ---------------------------------------------------------------------

  /** A custom ncpus given to Gsnap becomes the leading " -t <ncpus>"; otherwise there is none. */
  lemma GsnapThreads(name: string, input: string, args: seq<string>, kw: Kwargs, host: Host)
    ensures var t := GsnapPlan(name, input, args, kw, host).tail.value.args;
      (IsCustom(kw) && kw.addJobParms.Some? && "ncpus" in kw.addJobParms.value ==>
        t[0] == " -t " + ValStr(kw.addJobParms.value["ncpus"])) &&
      (!(IsCustom(kw) && kw.addJobParms.Some? && "ncpus" in kw.addJobParms.value) ==> t[0] == "--gunzip")
  {
  }

  /** BWA: " -t <ncpus>" from a custom ncpus, "-t 12" by default, no thread argument for a custom job without ncpus. */
  lemma BwaThreads(name: string, input: string, args: seq<string>, kw: Kwargs, host: Host)
    ensures var t := BwaPlan(name, input, args, kw, host).tail.value.args;
      (IsCustom(kw) && kw.addJobParms.Some? && "ncpus" in kw.addJobParms.value ==>
        t[0] == " -t " + ValStr(kw.addJobParms.value["ncpus"])) &&
      (!IsCustom(kw) ==> t[0] == "-t 12") &&
      (IsCustom(kw) && !(kw.addJobParms.Some? && "ncpus" in kw.addJobParms.value) ==> t[..|args|] == args)
  {
  }

  /**
   * samtools sort loses its thread argument: the arguments are the same
   * whatever custom profile is given.
   */
  lemma SortDropsThreads(name: string, input: string, args: seq<string>, kw: Kwargs, host: Host,
                         ty: Option<string>, add: Option<map<string, Val>>)
    ensures SamToolsSortPlan(name, input, args, kw, host).tail ==
            SamToolsSortPlan(name, input, args, kw.(jobParmsType := ty, addJobParms := add), host).tail
  {
  }

  /** Trimmomatic doubles a custom ncpus into " -threads <2n>" and uses 8 threads by default. */
  lemma TrimmomaticThreads(n: int, k: Kwargs)
    requires IsCustom(k) && k.addJobParms.Some? && "ncpus" in k.addJobParms.value
    requires k.addJobParms.value["ncpus"] == Num(n)
    ensures TrimThreads(k) == Success([" -threads " + IntToStr(2 * n)])
    ensures TrimThreads(k.(jobParmsType := Some("default"))) == Success(["-threads 8"])
  {
  }

  // ---------------------------------------------------------------------
  // GATK
  // ---------------------------------------------------------------------

  /** GATK's first `init` leaves no trace: the started wrapper is the one a single `init` gives. */
  lemma GatkSingleInit(name: string, input: string, args: seq<string>, kw: Kwargs, host: Host)
    requires GatkPlan(name, input, args, kw, host).Success?
    ensures var p := GatkPlan(name, input, args, kw, host).value;
      p.preName.Some? && Started(p, input, host) == Started(p.(preName := None), input, host)
  {
    var p := GatkPlan(name, input, args, kw, host).value;
    InitTwice(Blank(input), p.preName.value, p.name, p.kw, host);
  }

  /** "gatk_<Tool>" has no round suffix and splits into "gatk" and the tool. */
  lemma GatkFields(name: string, tool: string)
    requires name == "gatk" + "_" + tool
    requires '_' !in tool && !Contains(tool, "round")
    ensures ProgNameClean(name) == name && Split(name, '_') == ["gatk", tool]
  {
    var pre := "gatk" + "_";
    assert name == pre + tool;
    ContainsSkip(pre, tool, "round");
    ProgNameCleanFields(name);
    SplitConcat("gatk", tool, '_');
    SplitNoSep("gatk", '_');
    SplitNoSep(tool, '_');
  }

  /** The heap flag and "-T" inserted after "gatk" give the GATK name. */
  lemma GatkProgramIs(tool: string, mem: string)
    ensures GatkProgram(["gatk", tool], " -Xmx" + mem + "M") == GatkName(mem, tool)
  {
    var flag := " -Xmx" + mem + "M";
    assert ["gatk", flag, "-T"] + ["gatk", tool][1..] == ["gatk", flag, "-T", tool];
    JoinFour(" ", "gatk", flag, "-T", tool);
  }

  /**
   * On "gatk_<Tool>" the program name is "gatk", the heap flag, "-T" and
   * the tool, so name_clean gives "gatk_<Tool>" back for the stderr log.
   */
  lemma GatkProgramName(name: string, tool: string, input: string, args: seq<string>, kw: Kwargs, host: Host, mem: string)
    requires name == "gatk" + "_" + tool
    requires IsWord(tool) && '_' !in tool && !Contains(tool, "round") && !Contains(tool, "bqsr")
    requires forall i :: 0 <= i < |mem| ==> IsDigit(mem[i])
    requires GatkMem(kw) == " -Xmx" + mem + "M"
    requires GatkPlan(name, input, args, kw, host).Success?
    ensures var p := GatkPlan(name, input, args, kw, host).value;
      p.name == GatkName(mem, tool) && NameClean(p.name) == Success("gatk" + "_" + tool)
  {
    GatkFields(name, tool);
    GatkProgramIs(tool, mem);
    NameCleanGatk(mem, tool);
  }

  /** `sep.join([a, b, c, d])` */
  lemma JoinFour(sep: string, a: string, b: string, c: string, d: string)
    ensures Join(sep, [a, b, c, d]) == a + sep + b + sep + c + sep + d
  {
    assert [a, b, c, d][1..] == [b, c, d];
    Join3(sep, b, c, d);
  }

  // ---------------------------------------------------------------------
  // Command lines
  // ---------------------------------------------------------------------

  /** The stderr log of a one-word program without an explicit stderr. */
  function DefaultErrLog(kw: Kwargs, host: Host, input: string, name: string): string {
    PathJoin(InitDirs(kw, host).logDir, input + "_" + name + "_" + "err.log")
  }

  /**
   * The run command of a plan with one `init`, no threading and no second
   * command: the program, its arguments, the stderr and the stdout
   * redirects joined by spaces, then "; " and the extra command.
   */
  lemma SingleRun(p: Plan, input: string, host: Host)
    requires p.preName.None? && p.threadFlag.None? && p.second.None? && p.rename == ""
    requires p.update.Success? && p.tail.Success?
    requires IsWord(p.name) && p.kw.stderr.None?
    ensures var e := DefaultErrLog(p.kw, host, input, p.name);
      var line := Join(" ", [p.name] + p.tail.value.args +
                            ["2>>" + e, StdoutRedirect(Redirects(p.kw.stdout, None, p.kw.stdoutAppend), e, host)]);
      var add := p.tail.value.addCommand;
      Run(p, input, host).Success? &&
      Run(p, input, host).value.runCommand == Some(if add.Some? then line + "; " + add.value else line)
  {
    var s := Started(p, input, host);
    SplitWsToken(p.name);
    StderrRules(s);
    var t := p.tail.value;
    assert [p.name] + ([] + t.args + ["2>>" + DefaultErrLog(p.kw, host, input, p.name),
      StdoutRedirect(Redirects(p.kw.stdout, None, p.kw.stdoutAppend), DefaultErrLog(p.kw, host, input, p.name), host)])
      == [p.name] + t.args + ["2>>" + DefaultErrLog(p.kw, host, input, p.name),
      StdoutRedirect(Redirects(p.kw.stdout, None, p.kw.stdoutAppend), DefaultErrLog(p.kw, host, input, p.name), host)];
  }

  /** Regrouping the words of a command line. */
  lemma Regroup<T>(a: T, f: seq<T>, b: seq<T>, c: seq<T>, d: seq<T>)
    ensures [a] + (f + b + c) + d == [a] + f + b + c + d
  {
  }

  /** Regrouping the words of a command line whose arguments come in two parts. */
  lemma RegroupTwo<T>(a: T, f: seq<T>, b: seq<T>, d: seq<T>)
    ensures [a] + (f + b) + d == [a] + f + b + d
  {
  }

  /** The fields of a paired-end Gsnap plan with a custom thread count. */
  lemma GsnapShape(name: string, input: string, args: seq<string>, kw: Kwargs, host: Host, c: string)
    requires kw.jobParms != null && IsCustom(kw) && kw.addJobParms.Some?
    requires "ncpus" in kw.addJobParms.value && PairedEnd(kw) && kw.cwd == Some(c)
    ensures var p := GsnapPlan(name, input, args, kw, host);
      p.preName.None? && p.threadFlag.None? && p.second.None? && p.rename == "" && p.name == name &&
      p.update.Success? &&
      p.tail == Success(Tail([" -t " + ValStr(kw.addJobParms.value["ncpus"]), "--gunzip", "-A sam", "-N1", "--use-shared-memory=0"]
        + args + [PathJoin3(c, "fastq", input + "_1.fq.gz"), PathJoin3(c, "fastq", input + "_2.fq.gz")], None)) &&
      p.kw.stdout == kw.stdout && p.kw.stderr == kw.stderr && p.kw.stdoutAppend == kw.stdoutAppend &&
      DefaultErrLog(p.kw, host, input, name) == DefaultErrLog(kw, host, input, name)
  {
    var v := ValStr(kw.addJobParms.value["ncpus"]);
    var k := kw.(target := SampleTarget(Gsnap, input, host));
    assert " -t " + v + "" == " -t " + v;
    assert CustomArg(k, "ncpus", " -t ", "") == [" -t " + v];
    assert InitDirs(k, host).cwd == c;
    var files := [PathJoin3(c, "fastq", input + "_1.fq.gz"), PathJoin3(c, "fastq", input + "_2.fq.gz")];
    assert FastqFiles(InitDirs(k, host).cwd, input, PairedEnd(k)) == files;
    assert [" -t " + v] + ["--gunzip", "-A sam", "-N1", "--use-shared-memory=0"] ==
      [" -t " + v, "--gunzip", "-A sam", "-N1", "--use-shared-memory=0"];
  }

  /**
   * The paired-end Gsnap command of the wrapper test: the custom thread
   * count, the fixed gsnap options, the user's options, both read files,
   * the stderr log and the truncating stdout redirect.
   */
  lemma GsnapCommand(name: string, input: string, args: seq<string>, kw: Kwargs, host: Host, c: string, out: string)
    requires IsWord(name) && kw.jobParms != null && IsCustom(kw) && kw.addJobParms.Some?
    requires "ncpus" in kw.addJobParms.value && PairedEnd(kw) && kw.cwd == Some(c)
    requires kw.stderr.None? && kw.stdout == Some(out) && out != ""
    ensures var r := Run(GsnapPlan(name, input, args, kw, host), input, host);
      r.Success? && r.value.runCommand == Some(Join(" ",
        [name] + [" -t " + ValStr(kw.addJobParms.value["ncpus"]), "--gunzip", "-A sam", "-N1", "--use-shared-memory=0"]
        + args
        + [PathJoin3(c, "fastq", input + "_1.fq.gz"), PathJoin3(c, "fastq", input + "_2.fq.gz")]
        + ["2>>" + DefaultErrLog(kw, host, input, name), "1>" + AbsPath(host, out)]))
  {
    var p := GsnapPlan(name, input, args, kw, host);
    GsnapShape(name, input, args, kw, host, c);
    SingleRun(p, input, host);
    var e := DefaultErrLog(kw, host, input, name);
    StdoutRules(Redirects(p.kw.stdout, None, p.kw.stdoutAppend), e, host);
    var fixed := [" -t " + ValStr(kw.addJobParms.value["ncpus"]), "--gunzip", "-A sam", "-N1", "--use-shared-memory=0"];
    var files := [PathJoin3(c, "fastq", input + "_1.fq.gz"), PathJoin3(c, "fastq", input + "_2.fq.gz")];
    Regroup(name, fixed, args, files, ["2>>" + e, "1>" + AbsPath(host, out)]);
  }

  /** The fields of a bammarkduplicates2 plan. */
  lemma BiobambamShape(name: string, input: string, args: seq<string>, kw: Kwargs, host: Host, align: string, qc: string)
    requires kw.jobParms != null && !IsCustom(kw)
    requires kw.alignDir == Some(align) && kw.qcDir == Some(qc)
    ensures var p := BiobambamMarkDupPlan(name, input, args, kw, host);
      p.preName.None? && p.threadFlag.None? && p.second.None? && p.rename == "" && p.name == name &&
      p.update.Success? &&
      p.tail == Success(Tail(["index=0", "I=" + PathJoin(align, input + ".srtd.bam"),
        "O=" + PathJoin(align, input + ".dup.srtd.bam"), "M=" + PathJoin(qc, input + ".dup.metrics.txt")] + args, None)) &&
      p.kw.stdout == kw.stdout && p.kw.stderr == kw.stderr && p.kw.stdoutAppend == kw.stdoutAppend &&
      DefaultErrLog(p.kw, host, input, name) == DefaultErrLog(kw, host, input, name)
  {
  }

  /** The bammarkduplicates2 command of the wrapper test. */
  lemma BiobambamCommand(name: string, input: string, args: seq<string>, kw: Kwargs, host: Host,
                         align: string, qc: string, out: string)
    requires IsWord(name) && kw.jobParms != null && !IsCustom(kw)
    requires kw.alignDir == Some(align) && kw.qcDir == Some(qc)
    requires kw.stderr.None? && kw.stdout == Some(out) && out != ""
    ensures var r := Run(BiobambamMarkDupPlan(name, input, args, kw, host), input, host);
      r.Success? && r.value.runCommand == Some(Join(" ",
        [name] + ["index=0", "I=" + PathJoin(align, input + ".srtd.bam"), "O=" + PathJoin(align, input + ".dup.srtd.bam"),
         "M=" + PathJoin(qc, input + ".dup.metrics.txt")]
        + args + ["2>>" + DefaultErrLog(kw, host, input, name), "1>" + AbsPath(host, out)]))
  {
    var p := BiobambamMarkDupPlan(name, input, args, kw, host);
    BiobambamShape(name, input, args, kw, host, align, qc);
    SingleRun(p, input, host);
    var e := DefaultErrLog(kw, host, input, name);
    StdoutRules(Redirects(p.kw.stdout, None, p.kw.stdoutAppend), e, host);
    var fixed := ["index=0", "I=" + PathJoin(align, input + ".srtd.bam"), "O=" + PathJoin(align, input + ".dup.srtd.bam"),
      "M=" + PathJoin(qc, input + ".dup.metrics.txt")];
    RegroupTwo(name, fixed, args, ["2>>" + e, "1>" + AbsPath(host, out)]);
  }

  /** The fields of a QualiMap "<prog>_<mode>" plan with the default profile and a mode other than rnaseq. */
  lemma QualiMapShape(name: string, prog: string, mode: string, input: string, args: seq<string>, kw: Kwargs,
                      host: Host, align: string, work: string, qc: string)
    requires name == prog + "_" + mode && '_' !in prog && '_' !in mode && mode != "rnaseq"
    requires kw.jobParms != null && !IsCustom(kw)
    requires kw.alignDir == Some(align) && kw.workDir == Some(work) && kw.qcDir == Some(qc)
    ensures var p := QualiMapPlan(name, input, args, kw, host);
      var src := PathJoin(qc, input);
      p.preName.None? && p.threadFlag.None? && p.second.None? && p.rename == "" && p.name == prog &&
      p.update.Success? &&
      p.tail == Success(Tail([" -Xmx10000M", mode] + args
          + [" -bam ", PathJoin(align, input + ".dup.srtd.bam"), " -outdir ", PathJoin(PathJoin(work, "qc"), input)],
        Some(Join(" ", [" cp ", PathJoin(src, "qualimapReport.html "), PathJoin(src, input + "_qualimapReport.html ")])))) &&
      p.kw.stdout == kw.stdout && p.kw.stderr == kw.stderr && p.kw.stdoutAppend == kw.stdoutAppend &&
      DefaultErrLog(p.kw, host, input, prog) == DefaultErrLog(kw, host, input, prog)
  {
    SplitConcat(prog, mode, '_');
    SplitNoSep(prog, '_');
    SplitNoSep(mode, '_');
    assert Split(name, '_') == [prog, mode];
    assert [" -Xmx10000M"] + [mode] == [" -Xmx10000M", mode];
    var tailWords := [" -bam ", PathJoin(align, input + ".dup.srtd.bam"), " -outdir ", PathJoin(PathJoin(work, "qc"), input)];
    assert [" -Xmx10000M", mode] + args + [] + tailWords == [" -Xmx10000M", mode] + args + tailWords;
  }

  /**
   * The QualiMap bamqc command of the wrapper test: "qualimap", the
   * default heap flag, the mode, the user's options, the BAM and the
   * output directory, the redirects, then the copy of the report.
   */
  lemma QualiMapCommand(name: string, prog: string, mode: string, input: string, args: seq<string>, kw: Kwargs,
                        host: Host, align: string, work: string, qc: string, out: string)
    requires name == prog + "_" + mode && IsWord(prog) && '_' !in prog && '_' !in mode && mode != "rnaseq"
    requires kw.jobParms != null && !IsCustom(kw)
    requires kw.alignDir == Some(align) && kw.workDir == Some(work) && kw.qcDir == Some(qc)
    requires kw.stderr.None? && kw.stdout == Some(out) && out != ""
    ensures var r := Run(QualiMapPlan(name, input, args, kw, host), input, host);
      var src := PathJoin(qc, input);
      r.Success? && r.value.runCommand == Some(Join(" ",
        [prog] + [" -Xmx10000M", mode] + args
        + [" -bam ", PathJoin(align, input + ".dup.srtd.bam"), " -outdir ", PathJoin(PathJoin(work, "qc"), input)]
        + ["2>>" + DefaultErrLog(kw, host, input, prog), "1>" + AbsPath(host, out)])
        + "; " + Join(" ", [" cp ", PathJoin(src, "qualimapReport.html "), PathJoin(src, input + "_qualimapReport.html ")]))
  {
    var p := QualiMapPlan(name, input, args, kw, host);
    QualiMapShape(name, prog, mode, input, args, kw, host, align, work, qc);
    SingleRun(p, input, host);
    var e := DefaultErrLog(kw, host, input, prog);
    StdoutRules(Redirects(p.kw.stdout, None, p.kw.stdoutAppend), e, host);
    Regroup(prog, [" -Xmx10000M", mode], args,
      [" -bam ", PathJoin(align, input + ".dup.srtd.bam"), " -outdir ", PathJoin(PathJoin(work, "qc"), input)],
      ["2>>" + e, "1>" + AbsPath(host, out)]);
  }

  /**
   * A plan that threads with at most one thread and chains a second
   * command: both command lines are the program and the arguments with
   * the same redirects, joined by "; ".
   */
  lemma ChainedRun(p: Plan, input: string, host: Host)
    requires p.preName.None? && p.threadFlag.Some? && p.second.Some? && p.kw.maxConcurrency.UnwrapOr(1) <= 1
    requires p.update.Success? && p.tail.Success? && p.tail.value.addCommand.None?
    requires IsWord(p.name) && p.kw.stderr.None?
    ensures var e := DefaultErrLog(p.kw, host, input, p.name);
      var redirects := ["2>>" + e, StdoutRedirect(Redirects(p.kw.stdout, None, p.kw.stdoutAppend), e, host)];
      Run(p, input, host).Success? &&
      Run(p, input, host).value.runCommand ==
        Some(Join(" ", [p.name] + p.tail.value.args + redirects) + "; " + Join(" ", [p.name] + p.second.value + redirects))
  {
    var s1 := InitState(Blank(input), p.name, p.kw, host);
    assert ThreadingArgs(s1, p.threadFlag.value) == [];
    assert Started(p, input, host) == s1;
    var t := p.tail.value;
    InitRun(Blank(input), p, input, host, t.args);
    var s3 := SetupRunState(s1.(args := s1.args + t.args), None, host).value;
    SetupRunKeeps(s1.(args := s1.args + t.args), None, host);
    InitRun(s3, p, input, host, p.second.value);
  }

  /**
   * One command line of a plan with a one-word name and no explicit
   * stderr: the program, the arguments and the two redirects.
   */
  lemma InitRun(s0: WState, p: Plan, input: string, host: Host, a: seq<string>)
    requires IsWord(p.name) && p.kw.stderr.None? && s0.input == input
    ensures var u := InitState(s0, p.name, p.kw, host);
      var e := DefaultErrLog(p.kw, host, input, p.name);
      var redirects := ["2>>" + e, StdoutRedirect(Redirects(p.kw.stdout, None, p.kw.stdoutAppend), e, host)];
      SetupRunState(u.(args := u.args + a), None, host).Success? &&
      SetupRunState(u.(args := u.args + a), None, host).value.runCommand == Some(Join(" ", [p.name] + a + redirects))
  {
    var u := InitState(s0, p.name, p.kw, host);
    var v := u.(args := u.args + a);
    SplitWsToken(p.name);
    assert v.name == p.name && v.input == input && v.cmd == [p.name] && v.args == a;
    assert v.conf.redirects == Redirects(p.kw.stdout, None, p.kw.stdoutAppend);
    assert v.conf.dirs.logDir == InitDirs(p.kw, host).logDir;
    SetupRunOneWord(v, host);
    var e := DefaultErrLog(p.kw, host, input, p.name);
    var redirects := ["2>>" + e, StdoutRedirect(Redirects(p.kw.stdout, None, p.kw.stdoutAppend), e, host)];
    AppendAssoc([p.name], a, redirects);
  }

  /** The fields of a paired-end FastQC plan with the default profile. */
  lemma FastQCShape(name: string, input: string, args: seq<string>, kw: Kwargs, host: Host, c: string, qc: string)
    requires kw.jobParms != null && !IsCustom(kw) && PairedEnd(kw) && kw.cwd == Some(c) && kw.qcDir == Some(qc)
    ensures var p := FastQCPlan(name, input, args, kw, host);
      p.preName.None? && p.threadFlag == Some("-t") && p.name == name && p.update.Success? &&
      p.tail == Success(Tail([" -o " + qc] + args + [PathJoin3(c, "fastq", input + "_1.fq.gz")], None)) &&
      p.second == Some([" -o " + qc] + args + [PathJoin3(c, "fastq", input + "_2.fq.gz")]) &&
      p.kw.stdout == kw.stdout && p.kw.stderr == kw.stderr && p.kw.stdoutAppend == kw.stdoutAppend &&
      p.kw.maxConcurrency == kw.maxConcurrency &&
      DefaultErrLog(p.kw, host, input, name) == DefaultErrLog(kw, host, input, name)
  {
  }

  /**
   * The paired-end FastQC command of the wrapper test: one fastqc run per
   * read file, each with the QC directory, the stderr log and the
   * appending stdout log, chained with "; ".
   */
  lemma FastQCCommand(name: string, input: string, args: seq<string>, kw: Kwargs, host: Host,
                      c: string, qc: string, log: string)
    requires IsWord(name) && kw.jobParms != null && !IsCustom(kw) && PairedEnd(kw)
    requires kw.cwd == Some(c) && kw.qcDir == Some(qc) && kw.maxConcurrency.UnwrapOr(1) <= 1
    requires kw.stderr.None? && kw.stdout.None? && kw.stdoutAppend == Some(log) && log != ""
    ensures var r := Run(FastQCPlan(name, input, args, kw, host), input, host);
      var redirects := ["2>>" + DefaultErrLog(kw, host, input, name), "1>>" + AbsPath(host, log)];
      r.Success? && r.value.runCommand == Some(
        Join(" ", [name] + ([" -o " + qc] + args + [PathJoin3(c, "fastq", input + "_1.fq.gz")]) + redirects) + "; " +
        Join(" ", [name] + ([" -o " + qc] + args + [PathJoin3(c, "fastq", input + "_2.fq.gz")]) + redirects))
  {
    var p := FastQCPlan(name, input, args, kw, host);
    FastQCShape(name, input, args, kw, host, c, qc);
    ChainedRun(p, input, host);
    StdoutRules(Redirects(p.kw.stdout, None, p.kw.stdoutAppend), DefaultErrLog(kw, host, input, name), host);
  }
}
