// The workflow objects of bioflows/definedworkflows/rnaseq/rnaseqworkflow.py:
// what BaseWorkflow.__init__ and the __init__ of RnaSeqFlow, DnaSeqFlow and
// GatkFlow set up, and the methods that then fill the object's attributes
// step by step: the sample manifest, the work fastq names, the compiled
// steps, update_job_parms and chain_commands.
module Workflow {
  import opened Wrappers
  import opened PyStr
  import opened Params
  import opened Dicts
  import opened BaseWrappers
  import opened Tools
  import opened Compile
  import opened Tasks
  import opened Chain
  import opened Config

  // ---------------------------------------------------------------------
  // __init__
  // ---------------------------------------------------------------------

  /**
   * What `__init__` reads: the run section, the lines of the manifest's
   * fastq_file when the manifest names one, and the process's directory.
   */
  datatype Setup = Setup(run: Settings, manifest: Option<seq<string>>, cwd: string)

  /**
   * What BaseWorkflow.__init__ computes: the run section with its conda
   * command, the job_params entries, the samples read, the directories,
   * the log directories chain_commands uses, and the generic kwargs before
   * a job_parms dictionary is attached to them.
   */
  datatype Configured = Configured(run: Settings, jobEntries: map<string, Val>, samples: Samples, paths: Paths,
                       dirs: LogDirs, base: Kwargs)

  /** `parse_sample_info_from_file` on the manifest's lines; no fastq_file leaves the samples empty. */
  function ManifestSamples(manifest: Option<seq<string>>): Result<Samples> {
    match manifest
    case None => Success(Samples([], false))
    case Some(lines) =>
      var rows := Rows(lines);
      var r := ReadSamples(rows, Samples([], false));
      if r.error.Some? then Failure(r.error.value) else Success(r.s)
  }

  /**
   * BaseWorkflow.__init__ in its order: job_params (KeyError without
   * work_dir), the manifest, the saga parameters, the default conda
   * command, set_paths and set_base_kwargs; the first exception stops it.
   */
  function Configure(s: Setup): Result<Configured> {
    var jp0 :- InitialJobParams(s.run);
    var samples :- ManifestSamples(s.manifest);
    var jp :- SagaParms(s.run, jp0);
    var run := WithConda(s.run);
    var p :- SetPaths(run);
    var lv :- Setting(run, "log_dir");
    var l :- AsText(lv);
    var base :- BaseKwargs(p, run, null, s.cwd);
    Success(Configured(run, jp, samples, p, LogDirs(p.logDir, p.alignDir, p.workDir, l), base))
  }

  /** A configured workflow: every step of __init__ succeeded, and these are their results. */
  lemma ConfigureSteps(s: Setup)
    requires Configure(s).Success?
    ensures InitialJobParams(s.run).Success? && ManifestSamples(s.manifest).Success?
    ensures SagaParms(s.run, InitialJobParams(s.run).value).Success?
    ensures SetPaths(WithConda(s.run)).Success? && "log_dir" in s.run && s.run["log_dir"].Text?
    ensures var c := Configure(s).value;
      && c.run == WithConda(s.run) && c.jobEntries == SagaParms(s.run, InitialJobParams(s.run).value).value
      && c.samples == ManifestSamples(s.manifest).value && c.paths == SetPaths(WithConda(s.run)).value
      && c.dirs == LogDirs(c.paths.logDir, c.paths.alignDir, c.paths.workDir, s.run["log_dir"].s)
      && BaseKwargs(c.paths, WithConda(s.run), null, s.cwd) == Success(c.base)
  {
  }

  /**
   * A configured workflow starts from job_params holding the run's
   * work_dir, 80 minutes, 3000 MB, a saga host and a saga scheduler, and
   * holds the manifest's samples.
   */
  lemma ConfigureParams(s: Setup)
    requires Configure(s).Success?
    ensures var c := Configure(s).value;
      && {"work_dir", "time", "mem", "saga_host", "saga_scheduler"} <= c.jobEntries.Keys && "work_dir" in s.run
      && c.jobEntries["work_dir"] == s.run["work_dir"]
      && c.jobEntries["time"] == Num(80) && c.jobEntries["mem"] == Num(3000)
  {
    ConfigureSteps(s);
    SagaParmsFacts(s.run, InitialJobParams(s.run).value);
  }

  /** A configured workflow holds the samples its manifest's lines give, none without a manifest. */
  lemma ConfigureSamples(s: Setup)
    requires Configure(s).Success?
    ensures s.manifest.None? ==> Configure(s).value.samples == Samples([], false)
    ensures s.manifest.Some? ==>
      Configure(s).value.samples == ReadSamples(Rows(s.manifest.value), Samples([], false)).s
  {
    ConfigureSteps(s);
  }

  /**
   * A configured workflow's log directory is work_dir joined with the
   * run's log_dir, and its generic kwargs are never custom and hold
   * neither flow directory yet.
   */
  lemma ConfigurePaths(s: Setup)
    requires Configure(s).Success?
    ensures "work_dir" in s.run && s.run["work_dir"].Text? && "log_dir" in s.run && s.run["log_dir"].Text?
    ensures var c := Configure(s).value;
      && c.paths.workDir == s.run["work_dir"].s
      && c.paths.logDir == PathJoin(s.run["work_dir"].s, s.run["log_dir"].s)
      && c.dirs == LogDirs(c.paths.logDir, c.paths.alignDir, s.run["work_dir"].s, s.run["log_dir"].s)
      && !IsCustom(c.base) && c.base.workDir == Some(c.paths.workDir)
      && c.base.expressionDir.None? && c.base.gatkDir.None?
  {
    ConfigureSteps(s);
    SetPathsFacts(WithConda(s.run));
    BaseKwargsFacts(Configure(s).value.paths, s.run, null, s.cwd);
  }

  /** The flow's own directory: expression (RnaSeqFlow) or gatk_results (GatkFlow) under work_dir. */
  function FlowDir(f: Flow, workDir: string): Option<string> {
    match f
    case RnaSeq => Some(PathJoin(workDir, "expression"))
    case DnaSeq => None
    case GatkSeq => Some(PathJoin(workDir, "gatk_results"))
  }

  /** The flow's own directory, as a list of paths to test. */
  function FlowPaths(f: Flow, workDir: string): seq<string> {
    if FlowDir(f, workDir).Some? then [FlowDir(f, workDir).value] else []
  }

  /**
   * `base_kwargs` and `new_base_kwargs` after the flow's __init__, as
   * written: `copy` stands for the deep-copied job_parms dictionary.
   * RnaSeqFlow adds expression_dir to base_kwargs only, after
   * set_base_kwargs made the copy; GatkFlow adds gatk_dir and copies again.
   */
  function FlowKwargs(f: Flow, base: Kwargs, workDir: string, copy: JobParms): (Kwargs, Kwargs) {
    match f
    case RnaSeq => (base.(expressionDir := FlowDir(f, workDir)), base.(jobParms := copy))
    case DnaSeq => (base, base.(jobParms := copy))
    case GatkSeq =>
      var b := base.(gatkDir := FlowDir(f, workDir));
      (b, b.(jobParms := copy))
  }

  /** The kwargs with RnaSeqFlow copying again after adding expression_dir, as GatkFlow does. */
  function FlowKwargsFixed(f: Flow, base: Kwargs, workDir: string, copy: JobParms): (Kwargs, Kwargs) {
    match f
    case RnaSeq =>
      var b := base.(expressionDir := FlowDir(f, workDir));
      (b, b.(jobParms := copy))
    case DnaSeq => (base, base.(jobParms := copy))
    case GatkSeq =>
      var b := base.(gatkDir := FlowDir(f, workDir));
      (b, b.(jobParms := copy))
  }

  /**
   * Corrected, every flow's `new_base_kwargs` is the finished base_kwargs
   * with its own job_parms copy, so both hold the flow's directory; the
   * correction changes nothing for DnaSeqFlow and GatkFlow.
   */
  lemma FlowKwargsFixedCopies(f: Flow, base: Kwargs, workDir: string, copy: JobParms)
    requires base.expressionDir.None? && base.gatkDir.None?
    ensures var (b, n) := FlowKwargsFixed(f, base, workDir, copy);
      && n == b.(jobParms := copy) && b.jobParms == base.jobParms
      && (f == RnaSeq ==> n.expressionDir == FlowDir(f, workDir) && n.expressionDir.Some?)
      && (f == GatkSeq ==> n.gatkDir == FlowDir(f, workDir) && n.gatkDir.Some?)
      && (f != RnaSeq ==> FlowKwargsFixed(f, base, workDir, copy) == FlowKwargs(f, base, workDir, copy))
  {
  }

  /**
   * As written, a configured RnaSeqFlow's `new_base_kwargs` have no
   * expression_dir although its `base_kwargs` do.
   */
  lemma RnaCopyLacksExpressionDir(s: Setup, bp: JobParms, np: JobParms)
    requires Configure(s).Success?
    ensures var c := Configure(s).value;
      var (b, n) := FlowKwargs(RnaSeq, c.base.(jobParms := bp), c.paths.workDir, np);
      b.expressionDir.Some? && n.expressionDir.None?
  {
    ConfigurePaths(s);
  }

  /** A step registered as htseq-count, built from kwargs without expression_dir, raises. */
  lemma HtSeqCountNeedsExpressionDir(f: Flow, key: string, samp: string, args: seq<string>, bk: Kwargs, nk: Kwargs,
                                     d: LogDirs, host: Host)
    requires key in Registry && Registry[key] == HtSeqCounts && key != Aligner(f) && nk.expressionDir.None?
    ensures !AllBuild(KeyCalls(f, key, samp, args, bk, nk, d), Constructors(samp, host))
  {
    RegistryHasNoRound(key);
    PlainKeyCalls(f, key, samp, args, bk, nk, d);
    HtSeqCallFails(KeyCalls(f, key, samp, args, bk, nk, d)[0], samp, host);
  }

  /** The htseq-count key of the registry. */
  lemma HtSeqCountRegistered()
    ensures "htseq-count" in Registry && Registry["htseq-count"] == HtSeqCounts
    ensures "htseq-count" != Aligner(RnaSeq)
  {
  }

  /**
   * `update_job_parms` never adds expression_dir, so a sample whose keys
   * include htseq-count, started from `new_base_kwargs` without it, has a
   * call that cannot construct.
   */
  lemma MissingExpressionDirBreaks(ps: seq<(string, seq<string>)>, samp: string, env: Env,
                                   nk: Kwargs, host: Host, i: nat)
    requires forall j :: 0 <= j < |ps| ==> ps[j].0 in env.jobParms
    requires nk.expressionDir.None? && i < |ps| && ps[i].0 == "htseq-count"
    ensures !AllBuild(SampleCalls(RnaSeq, ps, samp, env, nk), Constructors(samp, host))
  {
    var cs := SampleCalls(RnaSeq, ps, samp, env, nk);
    HtSeqCountRegistered();
    RegistryHasNoRound("htseq-count");
    var j := KeyCallAt(RnaSeq, "htseq-count", ps, samp, env, nk, i);
    HtSeqCallFails(cs[j], samp, host);
  }

  /** A call registered as htseq-count whose kwargs lack expression_dir cannot construct. */
  lemma HtSeqCallFails(c: Call, samp: string, host: Host)
    requires c.key in Registry && Registry[c.key] == HtSeqCounts && c.kw.expressionDir.None?
    ensures Constructors(samp, host).state(c).Failure?
  {
    HtSeqNeedsExpressionDir(c.name, samp, c.args, c.kw, host);
    assert CallPlan(c, samp, host).Failure?;
  }

  /**
   * The calls of a sample whose keys include a plain key (neither the
   * aligner nor a round) hold one call under that key whose kwargs keep
   * the starting expression_dir.
   */
  lemma {:induction false} KeyCallAt(f: Flow, key: string, ps: seq<(string, seq<string>)>, samp: string, env: Env,
                                     nk: Kwargs, i: nat)
    returns (j: nat)
    requires key != Aligner(f) && !Contains(key, "round")
    requires forall k :: 0 <= k < |ps| ==> ps[k].0 in env.jobParms
    requires i < |ps| && ps[i].0 == key
    ensures var cs := SampleCalls(f, ps, samp, env, nk);
      j < |cs| && cs[j].key == key && cs[j].kw.expressionDir == nk.expressionDir
    decreases i
  {
    var nk1 := KeyKw(f, ps[0].0, nk, env.jobParms);
    KeyKwKeepsExpressionDir(f, ps[0].0, nk, env.jobParms);
    if i == 0 {
      SampleCallsFirst(f, ps, samp, env, nk);
      PlainKeyCalls(f, key, samp, ps[0].1, env.base, nk1, env.dirs);
      j := 0;
    } else {
      var tail := ps[1..];
      assert tail[i - 1] == ps[i];
      var k := KeyCallAt(f, key, tail, samp, env, nk1, i - 1);
      j := SampleCallsShift(f, ps, samp, env, nk, k);
    }
  }

  /** `update_job_parms` leaves expression_dir as it was. */
  lemma KeyKwKeepsExpressionDir(f: Flow, key: string, nk: Kwargs, jps: map<string, JobParams>)
    requires key in jps
    ensures KeyKw(f, key, nk, jps).expressionDir == nk.expressionDir
  {
  }

  /** A key that is neither the aligner nor a round expands into one call under that key. */
  lemma PlainKeyCalls(f: Flow, key: string, samp: string, args: seq<string>, base: Kwargs, nk: Kwargs, d: LogDirs)
    requires key != Aligner(f) && !Contains(key, "round")
    ensures var kc := KeyCalls(f, key, samp, args, base, nk, d);
      |kc| == 1 && kc[0].key == key && kc[0].kw.expressionDir == nk.expressionDir
  {
  }

  /** A call of the keys after the first is a call of the whole sample, further on. */
  lemma SampleCallsShift(f: Flow, ps: seq<(string, seq<string>)>, samp: string, env: Env, nk: Kwargs, k: nat)
    returns (j: nat)
    requires ps != [] && forall i :: 0 <= i < |ps| ==> ps[i].0 in env.jobParms
    requires k < |SampleCalls(f, ps[1..], samp, env, KeyKw(f, ps[0].0, nk, env.jobParms))|
    ensures j < |SampleCalls(f, ps, samp, env, nk)|
    ensures SampleCalls(f, ps, samp, env, nk)[j] == SampleCalls(f, ps[1..], samp, env, KeyKw(f, ps[0].0, nk, env.jobParms))[k]
  {
    var nk1 := KeyKw(f, ps[0].0, nk, env.jobParms);
    var kc := KeyCalls(f, ps[0].0, samp, ps[0].1, env.base, nk1, env.dirs);
    var rest := SampleCalls(f, ps[1..], samp, env, nk1);
    SampleCallsNext(f, ps, samp, env, nk);
    IndexAfter(kc, rest, k);
    j := |kc| + k;
  }

  /** One sample's calls are the first key's calls, then those of the remaining keys. */
  lemma SampleCallsNext(f: Flow, ps: seq<(string, seq<string>)>, samp: string, env: Env, nk: Kwargs)
    requires ps != [] && forall i :: 0 <= i < |ps| ==> ps[i].0 in env.jobParms
    ensures var nk1 := KeyKw(f, ps[0].0, nk, env.jobParms);
      SampleCalls(f, ps, samp, env, nk) ==
        KeyCalls(f, ps[0].0, samp, ps[0].1, env.base, nk1, env.dirs) + SampleCalls(f, ps[1..], samp, env, nk1)
  {
  }

  /** The calls of the first key lead the sample's calls. */
  lemma SampleCallsFirst(f: Flow, ps: seq<(string, seq<string>)>, samp: string, env: Env, nk: Kwargs)
    requires ps != [] && forall i :: 0 <= i < |ps| ==> ps[i].0 in env.jobParms
    ensures var kc := KeyCalls(f, ps[0].0, samp, ps[0].1, env.base, KeyKw(f, ps[0].0, nk, env.jobParms), env.dirs);
      kc != [] ==> SampleCalls(f, ps, samp, env, nk)[..|kc|] == kc
  {
  }

  /**
   * As written, every sample of an RnaSeqFlow whose steps include
   * htseq-count raises before its TaskSequence is appended.
   */
  lemma RnaHtSeqBreaksSample(samp: string, env: Env, host: Host, s: ChainState, i: nat)
    requires s.error.None? && Declared(env) && s.newKw.expressionDir.None?
    requires i < |env.progs| && env.progs[i].0 == "htseq-count"
    ensures SampleRun(RnaSeq, samp, env, Constructors(samp, host), s).error.Some?
  {
    MissingExpressionDirBreaks(env.progs, samp, env, s.newKw, host, i);
    SampleRunFacts(RnaSeq, samp, env, Constructors(samp, host), s);
  }

  // ---------------------------------------------------------------------
  // The workflow object
  // ---------------------------------------------------------------------

  /**
   * The loop of `symlink_fastqs` over two or more sources, on the dictionary
   * `w` of work files: each source gets <s>_<i>.fq.gz, numbered from 1, its
   * link command, and is appended to the sample's entry.
   */
  method NumberedLinks(fd: string, samp: string, files: seq<string>, w: seq<(string, seq<string>)>, cmds: seq<string>)
    returns (w': seq<(string, seq<string>)>, cmds': seq<string>)
    requires files != []
    ensures var names := seq(|files|, k requires 0 <= k < |files| => NumberedName(fd, samp, k + 1));
      && w' == Store(w, samp, names)
      && cmds' == cmds + seq(|files|, k requires 0 <= k < |files| => LinkCmd(files[k], names[k]))
  {
    var names: seq<string> := [];
    w' := w;
    cmds' := cmds;
    var num := 1;
    var j := 0;
    while j < |files|
      invariant 0 <= j <= |files| && num == j + 1
      invariant |names| == j && forall k :: 0 <= k < j ==> names[k] == NumberedName(fd, samp, k + 1)
      invariant |cmds'| == |cmds| + j && cmds'[..|cmds|] == cmds
      invariant forall k :: 0 <= k < j ==> cmds'[|cmds| + k] == LinkCmd(files[k], names[k])
      invariant w' == if j == 0 then w else Store(w, samp, names)
    {
      var name := PathJoin(fd, samp + "_" + IntToStr(num) + ".fq.gz");
      cmds' := cmds' + [LinkCmd(files[j], name)];
      if j > 0 {
        StoreTwice(w, samp, names, names + [name]);
      }
      w' := Store(w', samp, names + [name]);
      names := names + [name];
      num := num + 1;
      j := j + 1;
    }
    assert names == seq(|files|, k requires 0 <= k < |files| => NumberedName(fd, samp, k + 1));
    AppendedPointwise(cmds', cmds, seq(|files|, k requires 0 <= k < |files| => LinkCmd(files[k], names[k])));
  }

  class Workflow {
    const flow: Flow
    /** `run_parms`, with the conda command __init__ adds. */
    const run: Settings
    const paths: Paths
    /** The log directories chain_commands writes stdout files to. */
    const dirs: LogDirs
    const pathsToTest: seq<string>
    /** `self.job_params`, shared by `base_kwargs`. */
    const jobParams: JobParms
    /** The job_parms dictionary of `new_base_kwargs`, a deep copy. */
    const newParms: JobParms
    const baseKw: Kwargs
    var newKw: Kwargs
    var sampleFastq: seq<(string, seq<string>)>
    /** `self.paired_end`, None while never set. */
    var pairedEnd: Option<bool>
    var sampleFastqWork: seq<(string, seq<string>)>
    var progs: seq<(string, seq<string>)>
    var progsJobParms: map<string, JobParams>
    var allTasks: seq<Task>

    /** `base_kwargs` hold `job_params` and `new_base_kwargs` hold their own copy. */
    predicate Valid()
      reads this
    {
      baseKw.jobParms == jobParams && newKw.jobParms == newParms && jobParams != newParms
    }

    /** The object a flow's __init__ leaves, from the configuration computed. */
    predicate Initialised(f: Flow, c: Configured)
      reads this, jobParams, newParms
    {
      && flow == f && run == c.run && paths == c.paths && dirs == c.dirs
      && jobParams.entries == c.jobEntries && newParms.entries == c.jobEntries
      && (baseKw, newKw) == FlowKwargs(f, c.base.(jobParms := jobParams), c.paths.workDir, newParms)
      && pathsToTest == PathsToTest(c.paths) + FlowPaths(f, c.paths.workDir)
      && sampleFastq == c.samples.fastq && pairedEnd == (if c.samples.paired then Some(true) else None)
      && sampleFastqWork == [] && progs == [] && progsJobParms == map[] && allTasks == []
    }

    /** The attributes set by a flow's __init__; the class-level ones start empty. */
    constructor (f: Flow, c: Configured)
      ensures fresh(jobParams) && fresh(newParms)
      ensures Initialised(f, c) && Valid()
    {
      flow := f;
      run := c.run;
      paths := c.paths;
      dirs := c.dirs;
      var jp := new JobParms(c.jobEntries);
      var copy := jp.Copy();
      jobParams := jp;
      newParms := copy;
      var kws := FlowKwargs(f, c.base.(jobParms := jp), c.paths.workDir, copy);
      baseKw := kws.0;
      newKw := kws.1;
      pathsToTest := PathsToTest(c.paths) + FlowPaths(f, c.paths.workDir);
      sampleFastq := c.samples.fastq;
      pairedEnd := if c.samples.paired then Some(true) else None;
      sampleFastqWork := [];
      progs := [];
      progsJobParms := map[];
      allTasks := [];
    }

    // -------------------------------------------------------------------
    // The sample manifest and the work fastq files

    /**
     * `parse_sample_info_from_file` on the manifest's lines: `sample_fastq`
     * and `paired_end` as the lines read up to the first exception leave them.
     */
    method ParseSampleInfoFromFile(lines: seq<string>) returns (r: Result<()>)
      modifies this`sampleFastq, this`pairedEnd
      ensures var rd := ReadSamples(Rows(lines), Samples([], false));
        && sampleFastq == rd.s.fastq
        && pairedEnd == (if rd.s.paired then Some(true) else old(pairedEnd))
        && (r.Success? <==> rd.error.None?)
        && (r.Failure? ==> rd.error == Some(r.error))
    {
      ghost var rd := Reading(Samples([], false), None);
      sampleFastq := [];
      var i := 0;
      while i < |lines|
        invariant 0 <= i <= |lines|
        invariant rd == ReadSamples(Rows(lines[..i]), Samples([], false))
        invariant rd.error.None? && sampleFastq == rd.s.fastq
        invariant pairedEnd == if rd.s.paired then Some(true) else old(pairedEnd)
      {
        ReadLinesSnoc(lines, i, Samples([], false));
        var ok := ReadLine(lines[i], rd.s);
        rd := ReadRow(rd.s, LineFields(lines[i]));
        if !ok {
          ReadLinesStop(lines, Samples([], false), i + 1);
          return Failure("IndexError: list index out of range");
        }
        i := i + 1;
      }
      assert lines[..|lines|] == lines;
      r := Success(());
    }

    /** One line of the manifest: false when the IndexError is raised. */
    method ReadLine(line: string, ghost s: Samples) returns (ok: bool)
      requires sampleFastq == s.fastq
      modifies this`sampleFastq, this`pairedEnd
      ensures var rd := ReadRow(s, LineFields(line));
        && sampleFastq == rd.s.fastq && (ok <==> rd.error.None?)
        && (rd.error.Some? ==> rd.error == Some("IndexError: list index out of range"))
      ensures pairedEnd == if ok && |LineFields(line)| > 2 then Some(true) else old(pairedEnd)
    {
      var t := LineFields(line);
      ghost var before := sampleFastq;
      sampleFastq := Store(sampleFastq, t[0], []);
      if |t| < 2 {
        return false;
      }
      sampleFastq := Store(sampleFastq, t[0], [t[1]]);
      StoreTwice(before, t[0], [], [t[1]]);
      if |t| > 2 {
        sampleFastq := Store(sampleFastq, t[0], [t[1], t[2]]);
        StoreTwice(before, t[0], [t[1]], [t[1], t[2]]);
        pairedEnd := Some(true);
      }
      ok := true;
    }

    /**
     * `symlink_fastqs` up to the submission: `sample_fastq_work` and the
     * link commands, sample after sample, as LinkAll describes them.
     */
    method SymlinkFastqs() returns (cmds: seq<string>, r: Result<()>)
      modifies this`sampleFastqWork
      ensures var l := LinkAll(sampleFastq, paths.fastqDir, Linking(old(sampleFastqWork), [], None));
        && sampleFastqWork == l.work && cmds == l.cmds
        && (r.Success? <==> l.error.None?)
        && (r.Failure? ==> l.error == Some(r.error))
    {
      ghost var l0 := Linking(sampleFastqWork, [], None);
      cmds := [];
      var i := 0;
      while i < |sampleFastq|
        invariant 0 <= i <= |sampleFastq|
        invariant LinkAll(sampleFastq[..i], paths.fastqDir, l0) == Linking(sampleFastqWork, cmds, None)
      {
        LinkAllStep(sampleFastq, paths.fastqDir, l0, i);
        var ok;
        cmds, ok := LinkFiles(sampleFastq[i].0, sampleFastq[i].1, cmds);
        if !ok {
          LinkAllStops(sampleFastq, paths.fastqDir, l0, i + 1);
          assert sampleFastq[..|sampleFastq|] == sampleFastq;
          return cmds, Failure("IndexError: list index out of range");
        }
        i := i + 1;
      }
      assert sampleFastq[..|sampleFastq|] == sampleFastq;
      r := Success(());
    }

    /** The loop of `symlink_fastqs` over two or more sources: <s>_<i>.fq.gz from 1, one at a time. */
    method LinkNumbered(samp: string, files: seq<string>, cmds: seq<string>) returns (cmds': seq<string>)
      requires files != []
      modifies this`sampleFastqWork
      ensures var names := seq(|files|, k requires 0 <= k < |files| => NumberedName(paths.fastqDir, samp, k + 1));
        && sampleFastqWork == Store(old(sampleFastqWork), samp, names)
        && cmds' == cmds + seq(|files|, k requires 0 <= k < |files| => LinkCmd(files[k], names[k]))
    {
      var w;
      w, cmds' := NumberedLinks(paths.fastqDir, samp, files, sampleFastqWork, cmds);
      sampleFastqWork := w;
    }

    /** One sample of `symlink_fastqs`: false when the IndexError is raised. */
    method LinkFiles(samp: string, files: seq<string>, cmds: seq<string>) returns (cmds': seq<string>, ok: bool)
      modifies this`sampleFastqWork
      ensures var l := LinkSample(Linking(old(sampleFastqWork), cmds, None), paths.fastqDir, samp, files);
        && sampleFastqWork == l.work && (ok <==> l.error.None?) && (ok ==> cmds' == l.cmds)
        && (!ok ==> l.error == Some("IndexError: list index out of range") && cmds' == cmds)
    {
      var fd := paths.fastqDir;
      ghost var w0 := sampleFastqWork;
      cmds' := cmds;
      sampleFastqWork := Store(sampleFastqWork, samp, []);
      if |files| < 2 {
        if files == [] {
          return cmds', false;
        }
        var name := PathJoin(fd, samp + ".fq.gz");
        cmds' := cmds' + [LinkCmd(files[0], name)];
        sampleFastqWork := Store(sampleFastqWork, samp, [name]);
        StoreTwice(w0, samp, [], [name]);
      } else {
        cmds' := LinkNumbered(samp, files, cmds');
        StoreTwice(w0, samp, [], LinkNames(fd, samp, files));
      }
      ok := true;
    }

    /**
     * The work files `convert_sra_to_fastq_cmds` records in
     * `sample_fastq_work`, sample after sample, as SraAll describes them.
     */
    method ConvertSraWork() returns (r: Result<()>)
      modifies this`sampleFastqWork
      ensures var (w, e) := SraAll(sampleFastq, paths.fastqDir, pairedEnd, old(sampleFastqWork));
        && sampleFastqWork == w
        && (r.Success? <==> e.None?)
        && (r.Failure? ==> e == Some(r.error))
    {
      ghost var w0 := sampleFastqWork;
      var fd := paths.fastqDir;
      var i := 0;
      while i < |sampleFastq|
        invariant 0 <= i <= |sampleFastq|
        invariant SraAll(sampleFastq[..i], fd, pairedEnd, w0) == (sampleFastqWork, None)
      {
        var samp := sampleFastq[i].0;
        var files := sampleFastq[i].1;
        SraAllStep(sampleFastq, fd, pairedEnd, w0, i);
        ghost var before := sampleFastqWork;
        sampleFastqWork := Store(sampleFastqWork, samp, []);
        if pairedEnd.None? || files == [] {
          SraAllStops(sampleFastq, fd, pairedEnd, w0, i + 1);
          assert sampleFastq[..|sampleFastq|] == sampleFastq;
          if pairedEnd.None? {
            return Failure("AttributeError: no attribute 'paired_end'");
          }
          return Failure("IndexError: list index out of range");
        }
        if !pairedEnd.value {
          sampleFastqWork := Store(sampleFastqWork, samp, [PathJoin(fd, samp + ".fq.gz")]);
          StoreTwice(before, samp, [], [PathJoin(fd, samp + ".fq.gz")]);
        } else {
          var names := [PathJoin(fd, samp + "_1.fq.gz"), PathJoin(fd, samp + "_2.fq.gz")];
          sampleFastqWork := Store(sampleFastqWork, samp, names);
          StoreTwice(before, samp, [], names);
        }
        i := i + 1;
      }
      assert sampleFastq[..|sampleFastq|] == sampleFastq;
      r := Success(());
    }

    /** The text of sra_sample_fastq.csv: one line per sample of `sample_fastq_work`. */
    method SampleCsv() returns (text: string)
      ensures text == CsvFile(sampleFastqWork)
    {
      text := "";
      var i := 0;
      while i < |sampleFastqWork|
        invariant 0 <= i <= |sampleFastqWork|
        invariant text == CsvFile(sampleFastqWork[..i])
      {
        var k := sampleFastqWork[i].0;
        var v := sampleFastqWork[i].1;
        assert sampleFastqWork[..i + 1][..i] == sampleFastqWork[..i];
        var outstring := k + "," + Join(",", v);
        text := text + (Strip(outstring, {','}) + "\n");
        i := i + 1;
      }
      assert sampleFastqWork[..|sampleFastqWork|] == sampleFastqWork;
    }

    // -------------------------------------------------------------------
    // The steps of workflow_sequence

    /**
     * `parse_prog_info` on the parsed `workflow_sequence`: every mapping's
     * entries compiled in order into `progs` and `progs_job_parms`, and
     * `progs` then reversed.
     */
    method ParseProgInfo(ws: seq<seq<(string, StepVal)>>)
      modifies this`progs, this`progsJobParms
      ensures var c := CompileAll(ws, Compiled(old(progs), old(progsJobParms), []));
        progs == Reverse(c.progs) && progsJobParms == c.jobParms
    {
      ghost var goal := CompileAll(ws, Compiled(progs, progsJobParms, []));
      var prefix: seq<string> := [];
      var i := 0;
      while i < |ws|
        invariant 0 <= i <= |ws|
        invariant CompileAll(ws[i..], Compiled(progs, progsJobParms, prefix)) == goal
      {
        ghost var c0 := Compiled(progs, progsJobParms, prefix);
        var j := 0;
        while j < |ws[i]|
          invariant 0 <= j <= |ws[i]|
          invariant CompileMapping(ws[i][j..], Compiled(progs, progsJobParms, prefix)) == CompileMapping(ws[i], c0)
        {
          assert ws[i][j..][1..] == ws[i][j + 1..];
          prefix := AddEntry(ws[i][j].0, ws[i][j].1, prefix);
          j := j + 1;
        }
        assert ws[i..][1..] == ws[i + 1..];
        i := i + 1;
      }
      progs := Reverse(progs);
    }

    /** The body of `for k, v in p.iteritems()`: a step entry is stored under its name with its options and job parameters. */
    method AddEntry(k: string, v: StepVal, prefix: seq<string>) returns (prefix': seq<string>)
      modifies this`progs, this`progsJobParms
      ensures Compiled(progs, progsJobParms, prefix') == CompileEntry(Compiled(old(progs), old(progsJobParms), prefix), k, v)
    {
      if !Compiles(v) {
        return prefix;
      }
      ghost var c := Compiled(progs, progsJobParms, prefix);
      var newKey := k;
      if v.Mapping? && v.subcommand.Some? {
        newKey := k + "_" + v.subcommand.value;
      }
      prefix' := prefix + [newKey];
      var roundCounter := Rounds(newKey, prefix');
      if |progs| > 0 && roundCounter > 1 {
        newKey := newKey + "_" + "round" + "_" + IntToStr(roundCounter);
      }
      assert newKey == EntryName(c, k, v);
      var opts: seq<string> := [""];
      if v.Mapping? && v.options.Some? {
        opts := RenderOptions(v.options.value);
      }
      ghost var before := progs;
      progs := Store(progs, newKey, []);
      progs := Store(progs, newKey, opts);
      StoreTwice(before, newKey, [], opts);
      if v.Mapping? && v.jobParams.Some? {
        progsJobParms := progsJobParms[newKey := v.jobParams.value];
      } else {
        progsJobParms := progsJobParms[newKey := DefaultParams];
      }
    }

    // -------------------------------------------------------------------
    // chain_commands

    /** What `chain_commands` reads: `progs` in order, `progs_job_parms`, `base_kwargs` and the log directories. */
    function Context(): Env
      reads this
    {
      Env(progs, progsJobParms, baseKw, dirs)
    }

    /** The object's part of the chain state, with the current `samp_progs` and the exception raised, if any. */
    ghost function Chained(cur: seq<Encoded>, err: Option<string>): ChainState
      reads this, jobParams, newParms
    {
      ChainState(newKw, jobParams.entries, newParms.entries, cur, allTasks, err)
    }

    /** `update_job_parms(key)`: a KeyError for a key without job parameters. */
    method UpdateJobParms(key: string) returns (r: Result<()>)
      modifies this`newKw
      ensures key in progsJobParms ==> r.Success? && newKw == UpdateKw(old(newKw), progsJobParms[key])
      ensures key !in progsJobParms ==> r == Failure("KeyError: '" + key + "'") && newKw == old(newKw)
    {
      if key !in progsJobParms {
        return Failure("KeyError: '" + key + "'");
      }
      match progsJobParms[key] {
        case CustomParams(m) =>
          newKw := newKw.(jobParmsType := Some("custom"), addJobParms := Some(m));
        case DefaultParams =>
      }
      r := Success(());
    }

    /** The `update_job_parms(key)` calls of one key: two for the aligner outside GatkFlow, else one. */
    method KeyJobParms(key: string) returns (r: Result<()>)
      modifies this`newKw
      ensures newKw.jobParms == old(newKw.jobParms)
      ensures key in progsJobParms ==> r.Success? && newKw == KeyKw(flow, key, old(newKw), progsJobParms)
      ensures key !in progsJobParms ==> r == Failure("KeyError: '" + key + "'") && newKw == old(newKw)
    {
      r := UpdateJobParms(key);
      if r.Success? && key == Aligner(flow) && flow != GatkSeq {
        r := UpdateJobParms(key);
      }
    }

    /** One constructor call: its wrapper's record appended to `samp_progs`, or the exception it raises. */
    method CallCommand(c: Call, samp: string, host: Host, cur: seq<Encoded>) returns (cur': seq<Encoded>, err: Option<string>)
      requires jobParams != newParms
      requires c.kw.jobParms == if c.fromNew then newParms else jobParams
      modifies jobParams, newParms
      ensures Chained(cur', err) == Step(c, Constructors(samp, host), ChainState(old(newKw), old(jobParams.entries), old(newParms.entries), cur, old(allTasks), None))
    {
      var rec := Construct(c, samp, host);
      match rec {
        case Failure(e) => return cur, Some(e);
        case Success(x) => return cur + [x], None;
      }
    }

    /** Constructing the wrappers of a list of calls in order onto `samp_progs`, until one raises. */
    method RunCalls(cs: seq<Call>, samp: string, host: Host, cur: seq<Encoded>) returns (cur': seq<Encoded>, err: Option<string>)
      requires jobParams != newParms
      requires forall i :: 0 <= i < |cs| ==> cs[i].kw.jobParms == if cs[i].fromNew then newParms else jobParams
      modifies jobParams, newParms
      ensures Chained(cur', err) == Steps(cs, Constructors(samp, host), ChainState(old(newKw), old(jobParams.entries), old(newParms.entries), cur, old(allTasks), None))
    {
      ghost var b := Constructors(samp, host);
      ghost var goal := Steps(cs, b, Chained(cur, None));
      cur' := cur;
      err := None;
      var i := 0;
      while i < |cs| && err.None?
        invariant 0 <= i <= |cs|
        invariant Steps(cs[i..], b, Chained(cur', err)) == goal
      {
        assert cs[i..][1..] == cs[i + 1..];
        cur', err := CallCommand(cs[i], samp, host, cur');
        i := i + 1;
      }
      if err.Some? {
        StepsStopped(cs[i..], b, Chained(cur', err));
      }
    }

    /** One key of `progs` for one sample: its `update_job_parms` calls, then its constructor calls. */
    method KeyCommands(key: string, args: seq<string>, samp: string, host: Host, cur: seq<Encoded>) returns (cur': seq<Encoded>, err: Option<string>)
      requires Valid()
      modifies this`newKw, jobParams, newParms
      ensures Valid()
      ensures Chained(cur', err) == KeyStep(flow, key, args, samp, Context(), Constructors(samp, host), ChainState(old(newKw), old(jobParams.entries), old(newParms.entries), cur, old(allTasks), None))
    {
      var r := KeyJobParms(key);
      if r.Failure? {
        return cur, Some(r.error);
      }
      var cs := KeyCalls(flow, key, samp, args, baseKw, newKw, dirs);
      KeyCallsRoute(flow, key, samp, args, baseKw, newKw, dirs);
      cur', err := RunCalls(cs, samp, host, cur);
    }

    /** One pass of `for samp in self.sample_fastq_work`: every key of `progs`, then the sample's TaskSequence. */
    method SampleCommands(samp: string, host: Host) returns (sampProgs: seq<Encoded>, err: Option<string>)
      requires Valid()
      modifies this`newKw, this`allTasks, jobParams, newParms
      ensures Valid()
      ensures Chained(sampProgs, err) == SampleRun(flow, samp, Context(), Constructors(samp, host), ChainState(old(newKw), old(jobParams.entries), old(newParms.entries), [], old(allTasks), None))
    {
      ghost var b := Constructors(samp, host);
      ghost var goal := KeysRun(flow, progs, samp, Context(), b, Chained([], None));
      sampProgs := [];
      err := None;
      var i := 0;
      while i < |progs| && err.None?
        invariant 0 <= i <= |progs|
        invariant Valid()
        invariant KeysRun(flow, progs[i..], samp, Context(), b, Chained(sampProgs, err)) == goal
      {
        KeysRunNext(flow, progs, i, samp, Context(), b, Chained(sampProgs, err));
        sampProgs, err := KeyCommands(progs[i].0, progs[i].1, samp, host, sampProgs);
        i := i + 1;
      }
      if err.Some? {
        KeysStopped(flow, progs[i..], samp, Context(), b, Chained(sampProgs, err));
        return;
      }
      allTasks := allTasks + [TaskSequence(sampProgs)];
    }

    /** The `for samp in self.sample_fastq_work` loop of `chain_commands`, until a sample raises. */
    method ChainSamples(host: Host) returns (cur: seq<Encoded>, err: Option<string>)
      requires Valid()
      modifies this`newKw, this`allTasks, jobParams, newParms
      ensures Valid()
      ensures Chained(cur, err) == ChainRun(flow, Keys(sampleFastqWork), Context(), Builders(host),
        ChainState(old(newKw), old(jobParams.entries), old(newParms.entries), [], old(allTasks), None))
    {
      var samples := Keys(sampleFastqWork);
      ghost var goal := ChainRun(flow, samples, Context(), Builders(host), Chained([], None));
      cur, err := [], None;
      var i := 0;
      while i < |samples| && err.None?
        invariant 0 <= i <= |samples|
        invariant Valid()
        invariant ChainRun(flow, samples[i..], Context(), Builders(host), Chained(cur, err)) == goal
      {
        ChainRunNext(flow, samples, i, Context(), Builders(host), Chained(cur, err));
        assert Chained(cur, err).(current := []) == Chained([], None);
        assert Builders(host)(samples[i]) == Constructors(samples[i], host);
        cur, err := SampleCommands(samples[i], host);
        i := i + 1;
      }
      if err.Some? {
        ChainStopped(flow, samples[i..], Context(), Builders(host), Chained(cur, err));
      }
    }

    /** `chain_commands`: every sample of `sample_fastq_work` in order; the first exception raised ends it. */
    method ChainCommands(host: Host) returns (r: Result<()>)
      requires Valid()
      modifies this`newKw, this`allTasks, jobParams, newParms
      ensures Valid()
      ensures var s := ChainRun(flow, Keys(sampleFastqWork), Context(), Builders(host),
          ChainState(old(newKw), old(jobParams.entries), old(newParms.entries), [], old(allTasks), None));
        && newKw == s.newKw && jobParams.entries == s.baseParms && newParms.entries == s.newParms
        && allTasks == s.tasks
        && (r.Success? <==> s.error.None?) && (r.Failure? ==> s.error == Some(r.error))
    {
      var cur, err := ChainSamples(host);
      r := if err.Some? then Failure(err.value) else Success(());
    }
  }

  /**
   * `self.prog_wrappers[key](name, samp, *args, **kwargs)` followed by
   * `jsonpickle.encode`: the registry lookup, the constructor (which writes
   * the job_parms dictionary the kwargs hold), and the record of the new
   * wrapper; or the KeyError or exception raised first.
   */
  method Construct(c: Call, samp: string, host: Host) returns (r: Result<Encoded>)
    requires c.kw.jobParms != null
    modifies c.kw.jobParms
    ensures c.kw.jobParms.entries == CallParms(c, samp, host, old(c.kw.jobParms.entries))
    ensures r.Success? <==> CallState(c, samp, host).Success?
    ensures r.Failure? ==> CallState(c, samp, host) == Failure(r.error)
    ensures r.Success? ==> r.value == Encoded(CallState(c, samp, host).value, c.kw.jobParms.entries)
  {
    if c.key !in Registry {
      return Failure("KeyError: '" + c.key + "'");
    }
    var plan := ToolPlan(Registry[c.key], c.name, samp, c.args, c.kw, host);
    if plan.Failure? {
      return Failure(plan.error);
    }
    var w, built := Build(plan.value, samp, host);
    if built.Failure? {
      return Failure(built.error);
    }
    r := Success(Encoded(w.State(), c.kw.jobParms.entries));
  }

  /** The option strings of one `options` entry: one per value of a list, the bare flag for None. */
  method RenderEntry(k1: string, v1: OptVal) returns (e: seq<string>)
    ensures e == OptionEntry(k1, v1)
  {
    match v1 {
      case Scalar(x) =>
        if x == Null {
          e := [k1];
        } else {
          e := [k1 + " " + ValStr(x)];
        }
      case ListOf(xs) =>
        e := [];
        var j := 0;
        while j < |xs|
          invariant 0 <= j <= |xs| && |e| == j
          invariant forall m :: 0 <= m < j ==> e[m] == k1 + " " + ValStr(xs[m])
        {
          e := e + [k1 + " " + ValStr(xs[j])];
          j := j + 1;
        }
      case NoValue =>
        e := [k1];
    }
  }

  /** The option strings of an `options` mapping, as `parse_prog_info` appends them. */
  method RenderOptions(opts: seq<(string, OptVal)>) returns (r: seq<string>)
    ensures r == Options(opts)
  {
    r := [];
    var i := 0;
    while i < |opts|
      invariant 0 <= i <= |opts|
      invariant r == Options(opts[..i])
    {
      assert opts[..i + 1][..i] == opts[..i];
      var e := RenderEntry(opts[i].0, opts[i].1);
      r := r + e;
      i := i + 1;
    }
    assert opts[..i] == opts;
  }
}
