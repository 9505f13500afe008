// The per-tool wrappers of bioflows/bioflowsutils/wrappers.py as data: for
// each tool, the kwargs its constructor hands to `init` (with the
// checkpoint target it computes), the name, the arguments in order, the
// resource profile written into the shared job_parms and the extra shell
// command. One imperative constructor, `Build`, carries a plan out on a
// fresh wrapper object and the shared job_parms dictionary.
module Tools {
  import opened Wrappers
  import opened PyStr
  import opened Params
  import opened BaseWrappers

  // ---------------------------------------------------------------------
  // Resource profiles
  // ---------------------------------------------------------------------

  /** A resource profile {'mem': m, 'time': t, 'ncpus': n}. */
  function Profile(mem: int, time: int, ncpus: int): map<string, Val> {
    map["mem" := Num(mem), "time" := Num(time), "ncpus" := Num(ncpus)]
  }

  /**
   * The update every constructor applies to the shared job_parms: the
   * caller's add_job_parms when the job is custom, the tool's own profile
   * otherwise. Updating a missing job_parms, or with a missing
   * add_job_parms, raises.
   */
  function ProfileUpdate(kw: Kwargs, profile: map<string, Val>): (r: Result<map<string, Val>>)
    ensures r.Success? <==> kw.jobParms != null && (IsCustom(kw) ==> kw.addJobParms.Some?)
    ensures r.Success? && IsCustom(kw) ==> r.value == kw.addJobParms.value
    ensures r.Success? && !IsCustom(kw) ==> r.value == profile
  {
    if kw.jobParms == null then Failure("AttributeError: 'NoneType' object has no attribute 'update'")
    else if !IsCustom(kw) then Success(profile)
    else if kw.addJobParms.None? then Failure("TypeError: 'NoneType' object is not iterable")
    else Success(kw.addJobParms.value)
  }

  /**
   * The argument a custom profile adds from one of its keys,
   * `prefix + str(add_job_parms[key]) + suffix`, when that key is given.
   */
  function CustomArg(kw: Kwargs, key: string, prefix: string, suffix: string): seq<string> {
    if IsCustom(kw) && kw.addJobParms.Some? && key in kw.addJobParms.value then
      [prefix + ValStr(kw.addJobParms.value[key]) + suffix]
    else []
  }

  /** `str(v * 2)`: numbers double, booleans count as 0 and 1, text repeats, None raises. */
  function TimesTwoStr(v: Val): Result<string> {
    match v
    case Num(n) => Success(IntToStr(2 * n))
    case Flag(b) => Success(if b then "2" else "0")
    case Text(s) => Success(Twice(s))
    case Null => Failure("TypeError: unsupported operand type(s) for *: 'NoneType' and 'int'")
  }

  /** `kwargs.get('paired_end')` is truthy; `self.paired_end` has the same truth value. */
  predicate PairedEnd(kw: Kwargs) {
    kw.pairedEnd.Some? && Truthy(kw.pairedEnd.value)
  }

  // ---------------------------------------------------------------------
  // Plans and their execution
  // ---------------------------------------------------------------------

  /** What a constructor does after the profile update: the arguments it appends and its extra command. */
  datatype Tail = Tail(args: seq<string>, addCommand: Option<string>)

  /**
   * One constructor call. `preName` is an earlier `init` the constructor
   * runs first; `update` is the job_parms update (a failure raises before
   * anything is written); `tail` fails when the constructor raises after
   * the update; `rename` is appended to the name after `setup_run`;
   * `second` holds the arguments of a second command chained after the
   * first with "; ".
   */
  datatype Plan = Plan(
    kw: Kwargs,
    preName: Option<string>,
    name: string,
    threadFlag: Option<string>,
    update: Result<map<string, Val>>,
    tail: Result<Tail>,
    rename: string,
    second: Option<seq<string>>)

  /** The wrapper's fields after `init` and, when the plan threads, `add_threading`. */
  function Started(p: Plan, input: string, host: Host): WState {
    var s0 := if p.preName.Some? then InitState(Blank(input), p.preName.value, p.kw, host) else Blank(input);
    var s1 := InitState(s0, p.name, p.kw, host);
    if p.threadFlag.Some? then s1.(args := s1.args + ThreadingArgs(s1, p.threadFlag.value)) else s1
  }

  /** The command line (and a second one, when the plan has it) built on the started fields. */
  function Finish(s: WState, p: Plan, t: Tail, host: Host): Result<WState> {
    var s3 :- SetupRunState(s.(args := s.args + t.args), t.addCommand, host);
    match p.second
    case None => Success(s3.(name := s3.name + p.rename))
    case Some(a2) =>
      var u := InitState(s3, p.name, p.kw, host);
      var u3 :- SetupRunState(u.(args := u.args + a2), None, host);
      Success(u3.(runCommand := Some(s3.runCommand.value + "; " + u3.runCommand.value)))
  }

  /** The wrapper's fields at the end of the constructor, or the exception it raises. */
  function Run(p: Plan, input: string, host: Host): Result<WState> {
    if p.update.Failure? then Failure(p.update.error)
    else if p.tail.Failure? then Failure(p.tail.error)
    else Finish(Started(p, input, host), p, p.tail.value, host)
  }

  /** The job_parms entries after the constructor: updated once the update itself succeeded. */
  function UpdatedParms(p: Plan, entries: map<string, Val>): map<string, Val> {
    if p.update.Success? then entries + p.update.value else entries
  }

  /** The constructor's `init` calls and `add_threading` on a new object. */
  method Start(p: Plan, input: string, host: Host) returns (w: Wrapper)
    ensures fresh(w) && w.State() == Started(p, input, host)
  {
    w := new Wrapper(input);
    if p.preName.Some? {
      w.Init(p.preName.value, p.kw, host);
    }
    w.Init(p.name, p.kw, host);
    if p.threadFlag.Some? {
      w.AddThreading(p.threadFlag.value);
    }
  }

  /** The rest of the constructor, after the profile update: arguments, `setup_run`, renaming or the second command. */
  method Complete(w: Wrapper, p: Plan, t: Tail, host: Host) returns (r: Result<()>)
    modifies w
    ensures r.Success? <==> Finish(old(w.State()), p, t, host).Success?
    ensures r.Failure? ==> Finish(old(w.State()), p, t, host) == Failure(r.error)
    ensures r.Success? ==> w.State() == Finish(old(w.State()), p, t, host).value
  {
    w.AppendArgs(t.args);
    r := w.SetupRun(t.addCommand, host);
    if r.Failure? {
      return;
    }
    match p.second {
      case None =>
        w.Rename(p.rename);
      case Some(a2) =>
        var first := w.runCommand.value;
        w.Init(p.name, p.kw, host);
        w.AppendArgs(a2);
        r := w.SetupRun(None, host);
        if r.Success? {
          w.ChainAfter(first);
        }
    }
  }

  /**
   * A constructor call: a new wrapper object whose fields end as `Run`
   * says, and the shared job_parms updated in place.
   */
  method Build(p: Plan, input: string, host: Host) returns (w: Wrapper, r: Result<()>)
    modifies p.kw.jobParms
    ensures fresh(w)
    ensures r.Success? <==> Run(p, input, host).Success?
    ensures r.Failure? ==> Run(p, input, host) == Failure(r.error)
    ensures r.Success? ==> w.State() == Run(p, input, host).value
    ensures p.kw.jobParms != null ==> p.kw.jobParms.entries == UpdatedParms(p, old(p.kw.jobParms.entries))
  {
    w := Start(p, input, host);
    if p.update.Failure? {
      return w, Failure(p.update.error);
    }
    if p.kw.jobParms != null {
      p.kw.jobParms.Update(p.update.value);
    }
    if p.tail.Failure? {
      return w, Failure(p.tail.error);
    }
    r := Complete(w, p, p.tail.value, host);
  }

  // ---------------------------------------------------------------------
  // The tools
  // ---------------------------------------------------------------------

  /** The constructors of wrappers.py the workflows register. */
  datatype Tool =
    | FastQC | Gsnap | SamToBam | BamToMappedBam | BamToUnmappedBam | SamToolsSort | SamIndex
    | BiobambamMarkDup | QualiMap | SalmonCounts | HtSeqCounts | Bwa | BedtoolsCounts | Trimmomatic
    | Picard | Gatk

  /** The resource profile a tool writes when the job is not custom (BedtoolsCounts writes none). */
  function DefaultProfile(t: Tool): map<string, Val> {
    match t
    case FastQC => Profile(1000, 80, 1)
    case Gsnap => Profile(1000, 80, 1)
    case SamToBam => Profile(2000, 300, 1)
    case BamToMappedBam => Profile(2000, 300, 1)
    case BamToUnmappedBam => Profile(2000, 300, 1)
    case SamToolsSort => Profile(4000, 300, 1)
    case SamIndex => Profile(1000, 80, 1)
    case BiobambamMarkDup => Profile(10000, 300, 1)
    case QualiMap => Profile(10000, 80, 8)
    case SalmonCounts => Profile(10000, 80, 8)
    case HtSeqCounts => Profile(10000, 80, 2)
    case Bwa => Profile(4000, 80, 12)
    case BedtoolsCounts => map[]
    case Trimmomatic => Profile(10000, 600, 4)
    case Picard => Profile(10000, 80, 4)
    case Gatk => Profile(10000, 80, 4)
  }

  /**
   * The checkpoint target a constructor sets from the sample alone; None
   * for the tools whose target depends on more (FastQC, Picard, GATK) or
   * that set none (Trimmomatic).
   */
  function SampleTarget(t: Tool, input: string, host: Host): Option<string> {
    var H := host.sha224;
    match t
    case Gsnap => Some(input + ".sam." + H(input + ".sam") + ".txt")
    case SamToBam => Some(input + ".bam" + H(input + ".bam") + ".txt")
    case BamToMappedBam => Some(input + ".mapped.bam" + H(input + ".mapped.bam") + ".txt")
    case BamToUnmappedBam => Some(input + ".unmapped.bam" + H(input + ".unmapped.bam") + ".txt")
    case SamToolsSort => Some(input + ".srtd.bam" + H(input + ".srtd.bam") + ".txt")
    case SamIndex => Some(input + ".srtd.bam.bai" + H(input + ".srtd.bam.bai") + ".txt")
    case BiobambamMarkDup => Some(input + ".dup.srtd.bam" + H(input + ".dup.srtd.bam") + ".txt")
    case QualiMap => Some(input + ".qualimapReport." + H(input + ".qualimapReport.html") + ".txt")
    case SalmonCounts => Some(input + ".salmoncounts." + H(input + ".salmoncounts") + ".txt")
    case HtSeqCounts => Some(input + ".htseqcounts." + H(input + ".htseqcounts") + ".txt")
    case Bwa => Some(input + ".sam." + H(input + ".sam") + ".txt")
    case BedtoolsCounts => Some(H(input + ".bedtoolsCounts.csv") + ".txt")
    case _ => None
  }

  /** FastQC's target: the zip of the second file when paired-end, else the zip. */
  function FastQCTarget(input: string, pe: bool, host: Host): string {
    if pe then input + ".2.fastqc" + host.sha224(input + ".2.fastqc.zip") + ".txt"
    else input + ".fastqc.zip." + host.sha224(input + ".fastqc.zip") + ".txt"
  }

  /**
   * The checkpoint target a constructor hands to `init`: the sample's own
   * for most tools, FastQC's by paired-endness, Picard's and GATK's by the
   * subcommand in the name (and GATK's by a "-BQSR" argument), while
   * Trimmomatic keeps the caller's.
   */
  predicate TargetRule(p: Plan, t: Tool, name: string, input: string, args: seq<string>, kw: Kwargs, host: Host) {
    match t
    case FastQC => p.kw.target == Some(FastQCTarget(input, PairedEnd(kw), host))
    case Trimmomatic => p.kw.target == kw.target
    case Picard =>
      var parts := Split(name, '_');
      |parts| >= 2 && p.kw.target == Some(PicardTargetFile(parts[1], input, host))
    case Gatk =>
      var parts := Split(ProgNameClean(name), '_');
      |parts| >= 2 && p.kw.target == Some(GatkTargetFile(parts[1], input, "-BQSR" in args, host))
    case _ => p.kw.target == SampleTarget(t, input, host)
  }

  /**
   * The profile rule a constructor follows: it keeps the caller's
   * job_parms and custom settings and updates job_parms with the tool's
   * default profile or with add_job_parms.
   */
  predicate Fits(p: Plan, t: Tool, kw: Kwargs) {
    p.kw.jobParms == kw.jobParms && p.kw.jobParmsType == kw.jobParmsType && p.kw.addJobParms == kw.addJobParms &&
    p.update == ProfileUpdate(kw, DefaultProfile(t))
  }

  /** The reads under <cwd>/fastq: one file, or the _1/_2 pair. */
  function FastqFiles(cwd: string, input: string, pe: bool): seq<string> {
    if pe then [PathJoin3(cwd, "fastq", input + "_1.fq.gz"), PathJoin3(cwd, "fastq", input + "_2.fq.gz")]
    else [PathJoin3(cwd, "fastq", input + ".fq.gz")]
  }

  /**
   * FastQC: the target names the zip (the second one when paired-end),
   * `-t` threading, `-o` the QC directory, then the reads; paired-end runs
   * a second command on the _2 file.
   */
  function FastQCPlan(name: string, input: string, args: seq<string>, kw: Kwargs, host: Host): (r: Plan)
    ensures Fits(r, FastQC, kw) && TargetRule(r, FastQC, name, input, args, kw, host)
  {
    var pe := PairedEnd(kw);
    var k := kw.(target := Some(FastQCTarget(input, pe, host)));
    var d := InitDirs(k, host);
    var head := [" -o " + d.qcDir] + args;
    Plan(k, None, name, Some("-t"), ProfileUpdate(k, DefaultProfile(FastQC)),
      Success(Tail(head + [PathJoin3(d.cwd, "fastq", input + (if pe then "_1.fq.gz" else ".fq.gz"))], None)),
      "", if pe then Some(head + [PathJoin3(d.cwd, "fastq", input + "_2.fq.gz")]) else None)
  }

  /** Gsnap: a custom ncpus gives " -t <n>", then the fixed gsnap options, the user's, and the reads. */
  function GsnapPlan(name: string, input: string, args: seq<string>, kw: Kwargs, host: Host): (r: Plan)
    ensures Fits(r, Gsnap, kw) && TargetRule(r, Gsnap, name, input, args, kw, host)
  {
    var k := kw.(target := SampleTarget(Gsnap, input, host));
    var d := InitDirs(k, host);
    Plan(k, None, name, None, ProfileUpdate(k, DefaultProfile(Gsnap)),
      Success(Tail(CustomArg(k, "ncpus", " -t ", "") + ["--gunzip", "-A sam", "-N1", "--use-shared-memory=0"]
        + args + FastqFiles(d.cwd, input, PairedEnd(k)), None)),
      "", None)
  }

  /** samtools view of the SAM into a BAM, renamed "<name> view fromsam" afterwards. */
  function SamToBamPlan(name: string, input: string, args: seq<string>, kw: Kwargs, host: Host): (r: Plan)
    ensures Fits(r, SamToBam, kw) && TargetRule(r, SamToBam, name, input, args, kw, host)
  {
    var k := kw.(target := SampleTarget(SamToBam, input, host));
    var a := InitDirs(k, host).alignDir;
    Plan(k, None, name + " view", None, ProfileUpdate(k, DefaultProfile(SamToBam)),
      Success(Tail(["-Sbh ", "-o", PathJoin(a, input + ".bam")] + args + [PathJoin(a, input + ".sam")], None)),
      " fromsam", None)
  }

  /** samtools view -F 0x4 of the BAM: the mapped reads. */
  function BamToMappedBamPlan(name: string, input: string, args: seq<string>, kw: Kwargs, host: Host): (r: Plan)
    ensures Fits(r, BamToMappedBam, kw) && TargetRule(r, BamToMappedBam, name, input, args, kw, host)
  {
    var k := kw.(target := SampleTarget(BamToMappedBam, input, host));
    var a := InitDirs(k, host).alignDir;
    Plan(k, None, name + " view", None, ProfileUpdate(k, DefaultProfile(BamToMappedBam)),
      Success(Tail(["-F 0x4", "-bh ", "-o", PathJoin(a, input + ".mapped.bam")] + args + [PathJoin(a, input + ".bam")], None)),
      " mapped", None)
  }

  /** samtools view -f 0x4 of the SAM: the unmapped reads. */
  function BamToUnmappedBamPlan(name: string, input: string, args: seq<string>, kw: Kwargs, host: Host): (r: Plan)
    ensures Fits(r, BamToUnmappedBam, kw) && TargetRule(r, BamToUnmappedBam, name, input, args, kw, host)
  {
    var k := kw.(target := SampleTarget(BamToUnmappedBam, input, host));
    var a := InitDirs(k, host).alignDir;
    Plan(k, None, name + " view", None, ProfileUpdate(k, DefaultProfile(BamToUnmappedBam)),
      Success(Tail(["-f 0x4", "-bh ", "-o", PathJoin(a, input + ".unmapped.bam")] + args + [PathJoin(a, input + ".sam")], None)),
      " unmapped", None)
  }

  /**
   * samtools sort. The custom " -t <ncpus>" argument is appended and then
   * thrown away, because the argument list is reassigned afterwards.
   */
  function SamToolsSortPlan(name: string, input: string, args: seq<string>, kw: Kwargs, host: Host): (r: Plan)
    ensures Fits(r, SamToolsSort, kw) && TargetRule(r, SamToolsSort, name, input, args, kw, host)
  {
    var k := kw.(target := SampleTarget(SamToolsSort, input, host));
    var a := InitDirs(k, host).alignDir;
    Plan(k, None, name + " sort", None, ProfileUpdate(k, DefaultProfile(SamToolsSort)),
      Success(Tail(["-o", PathJoin(a, input + ".srtd.bam")] + args + [PathJoin(a, input + ".bam")], None)),
      "", None)
  }

  /** samtools index of the sorted BAM. */
  function SamIndexPlan(name: string, input: string, args: seq<string>, kw: Kwargs, host: Host): (r: Plan)
    ensures Fits(r, SamIndex, kw) && TargetRule(r, SamIndex, name, input, args, kw, host)
  {
    var k := kw.(target := SampleTarget(SamIndex, input, host));
    var a := InitDirs(k, host).alignDir;
    Plan(k, None, name + " index", None, ProfileUpdate(k, DefaultProfile(SamIndex)),
      Success(Tail([PathJoin(a, input + ".srtd.bam")] + args, None)),
      "", None)
  }

  /** bammarkduplicates2: index=0, the sorted BAM in, the marked BAM out, the metrics file. */
  function BiobambamMarkDupPlan(name: string, input: string, args: seq<string>, kw: Kwargs, host: Host): (r: Plan)
    ensures Fits(r, BiobambamMarkDup, kw) && TargetRule(r, BiobambamMarkDup, name, input, args, kw, host)
  {
    var k := kw.(target := SampleTarget(BiobambamMarkDup, input, host));
    var d := InitDirs(k, host);
    Plan(k, None, name, None, ProfileUpdate(k, DefaultProfile(BiobambamMarkDup)),
      Success(Tail(["index=0",
                    "I=" + PathJoin(d.alignDir, input + ".srtd.bam"),
                    "O=" + PathJoin(d.alignDir, input + ".dup.srtd.bam"),
                    "M=" + PathJoin(d.qcDir, input + ".dup.metrics.txt")] + args, None)),
      "", None)
  }

  /** The Java heap argument of a QualiMap or Picard run: the custom mem, or 10000M by default. */
  function HeapArg(kw: Kwargs): seq<string> {
    if IsCustom(kw) then CustomArg(kw, "mem", " -Xmx", "M") else [" -Xmx10000M"]
  }

  /**
   * QualiMap "<prog>_<mode>": the program is the first '_'-field, the mode
   * the second (rnaseq adds the GTF), then the BAM and the output
   * directory; the report is copied to <qc_dir>/<input>/<input>_qualimapReport.html.
   */
  function QualiMapPlan(name: string, input: string, args: seq<string>, kw: Kwargs, host: Host): (r: Plan)
    ensures Fits(r, QualiMap, kw) && TargetRule(r, QualiMap, name, input, args, kw, host)
  {
    var k := kw.(target := SampleTarget(QualiMap, input, host));
    var parts := Split(name, '_');
    Plan(k, None, parts[0], None, ProfileUpdate(k, DefaultProfile(QualiMap)),
      QualiMapTail(parts, input, args, k), "", None)
  }

  /** The part of QualiMap's constructor after the profile update. */
  function QualiMapTail(parts: seq<string>, input: string, args: seq<string>, k: Kwargs): Result<Tail> {
    if |parts| < 2 then Failure("IndexError: list index out of range")
    else
      var mode := parts[1];
      var bam :- JoinOpt(k.alignDir, input + ".dup.srtd.bam");
      var qc :- JoinOpt(k.workDir, "qc");
      var src :- JoinOpt(k.qcDir, input);
      Success(Tail(HeapArg(k) + [mode] + args + (if mode == "rnaseq" then [" -gtf ", OptStr(k.gtfFile)] else [])
                   + [" -bam ", bam, " -outdir ", PathJoin(qc, input)],
                   Some(Join(" ", [" cp ", PathJoin(src, "qualimapReport.html "),
                                   PathJoin(src, input + "_qualimapReport.html ")]))))
  }

  /** salmon quant: the library type, the reads from fastq_dir, the output under work_dir/expression_dir. */
  function SalmonCountsPlan(name: string, input: string, args: seq<string>, kw: Kwargs, host: Host): (r: Plan)
    ensures Fits(r, SalmonCounts, kw) && TargetRule(r, SalmonCounts, name, input, args, kw, host)
  {
    var k := kw.(target := SampleTarget(SalmonCounts, input, host));
    Plan(k, None, name + " quant", None, ProfileUpdate(k, DefaultProfile(SalmonCounts)),
      SalmonTail(input, args, k), "", None)
  }

  /** The part of salmon's constructor after the profile update. */
  function SalmonTail(input: string, args: seq<string>, k: Kwargs): Result<Tail> {
    var fq :- Present(k.fastqDir);
    var w :- Present(k.workDir);
    var e :- Present(k.expressionDir);
    var files := if !PairedEnd(k) then ["-r", PathJoin(fq, input + ".fq.gz")]
                 else ["-1", PathJoin(fq, input + "_1.fq.gz"), "-2", PathJoin(fq, input + "_2.fq.gz")];
    Success(Tail(args + ["-l A"] + files + [" -o " + PathJoin3(w, e, input + "_salmon_counts")],
                 Some(Join(" ", [" cp ", PathJoin3(e, input + "_salmon_counts", "quant.genes.sf"),
                                 PathJoin(e, input + "_salmon_quant.genes.txt")]))))
  }

  /**
   * htseq-count: the caller's stdout becomes the stderr log and the
   * counts go to <work_dir>/<expression_dir>/<input>_htseq_counts, which
   * raises before anything else when either directory is missing.
   */
  function HtSeqCountsPlan(name: string, input: string, args: seq<string>, kw: Kwargs, host: Host): (r: Result<Plan>)
    ensures r.Success? ==> Fits(r.value, HtSeqCounts, kw) && TargetRule(r.value, HtSeqCounts, name, input, args, kw, host)
  {
    var w :- Present(kw.workDir);
    var e :- Present(kw.expressionDir);
    var k := kw.(target := SampleTarget(HtSeqCounts, input, host),
                 stderr := kw.stdout, stdout := Some(PathJoin3(w, e, input + "_htseq_counts")));
    Success(Plan(k, None, name, None, ProfileUpdate(k, DefaultProfile(HtSeqCounts)), HtSeqTail(input, args, k), "", None))
  }

  /** htseq-count's constructor raises whenever the kwargs lack expression_dir. */
  lemma HtSeqNeedsExpressionDir(name: string, input: string, args: seq<string>, kw: Kwargs, host: Host)
    requires kw.expressionDir.None?
    ensures ToolPlan(HtSeqCounts, name, input, args, kw, host).Failure?
  {
    assert HtSeqCountsPlan(name, input, args, kw, host).Failure?;
  }

  /** The part of htseq-count's constructor after the profile update. */
  function HtSeqTail(input: string, args: seq<string>, k: Kwargs): Result<Tail> {
    var bam :- JoinOpt(k.alignDir, input + ".dup.srtd.bam");
    Success(Tail(args + ["-f", "bam", "-r", "pos", "-a", "0", "-t", "exon", "-i", "gene_id",
                         "--additional-attr=gene_name", "--nonunique=all", "--secondary-alignments=score"]
                      + [bam, OptStr(k.gtfFile)], None))
  }

  /** BWA "<prog>_<sub>": the name's fields joined by spaces; 12 threads by default, the custom ncpus otherwise. */
  function BwaPlan(name: string, input: string, args: seq<string>, kw: Kwargs, host: Host): (r: Plan)
    ensures Fits(r, Bwa, kw) && TargetRule(r, Bwa, name, input, args, kw, host)
  {
    var k := kw.(target := SampleTarget(Bwa, input, host));
    var d := InitDirs(k, host);
    var threads := if IsCustom(k) then CustomArg(k, "ncpus", " -t ", "") else ["-t 12"];
    Plan(k, None, JoinSplitCmd(name), None, ProfileUpdate(k, DefaultProfile(Bwa)),
      Success(Tail(threads + args + FastqFiles(d.cwd, input, PairedEnd(k)), None)), "", None)
  }

  /** bedtools multicov, on files under the working directory; it writes no job parameters. */
  function BedtoolsCountsPlan(name: string, input: string, args: seq<string>, kw: Kwargs, host: Host): (r: Plan)
    ensures r.kw.jobParms == kw.jobParms && r.update == Success(map[])
    ensures TargetRule(r, BedtoolsCounts, name, input, args, kw, host)
  {
    var k := kw.(target := SampleTarget(BedtoolsCounts, input, host));
    var c := InitDirs(k, host).cwd;
    Plan(k, None, name + " multicov ", None, Success(map[]),
      Success(Tail(["-split", "-D", "-f 0.95",
                    "-a " + PathJoin(c, input + ".dup.srtd.bam"),
                    "-b " + PathJoin(c, input + ".dup.metrics.txt")] + args, None)),
      "", None)
  }

  /** Trimmomatic's thread argument: twice the custom ncpus, or 8 by default. */
  function TrimThreads(k: Kwargs): Result<seq<string>> {
    if !IsCustom(k) then Success(["-threads 8"])
    else if k.addJobParms.Some? && "ncpus" in k.addJobParms.value then
      var n :- TimesTwoStr(k.addJobParms.value["ncpus"]);
      Success([" -threads " + n])
    else Success([])
  }

  /**
   * Trimmomatic "<prog>_<sub>": it sets no target of its own. Paired-end
   * runs rename the paired outputs and delete the unpaired ones
   * afterwards; single-end runs end with an empty extra command.
   */
  function TrimmomaticPlan(name: string, input: string, args: seq<string>, kw: Kwargs, host: Host): (r: Plan)
    ensures Fits(r, Trimmomatic, kw) && TargetRule(r, Trimmomatic, name, input, args, kw, host)
  {
    Plan(kw, None, JoinSplitCmd(name), None, ProfileUpdate(kw, DefaultProfile(Trimmomatic)),
      TrimTail(name, input, args, kw), "", None)
  }

  /** The part of Trimmomatic's constructor after the profile update. */
  function TrimTail(name: string, input: string, args: seq<string>, k: Kwargs): Result<Tail> {
    var threads :- TrimThreads(k);
    var fq :- Present(k.fastqDir);
    var files := if PairedEnd(k) then [PathJoin(fq, input + "_1.fq.gz"), PathJoin(fq, input + "_2.fq.gz")]
                 else [PathJoin(fq, input + ".fq.gz")];
    var moves := if PairedEnd(k) then
        "mv -v " + PathJoin(fq, input + "_tr_1P.fq.gz") + " " + PathJoin(fq, input + "_tr_1.fq.gz") + "; "
        + "mv -v " + PathJoin(fq, input + "_tr_2P.fq.gz") + " " + PathJoin(fq, input + "_tr_2.fq.gz") + ";"
        + "rm -v " + PathJoin(fq, input + "_tr_1U.fq.gz") + "; "
        + "rm -v " + PathJoin(fq, input + "_tr_2U.fq.gz") + "; "
      else "";
    var log :- Present(k.logDir);
    Success(Tail(threads + args + files + ["-baseout", PathJoin(fq, input + "_tr.fq.gz")]
                 + ["-trimlog", PathJoin(log, input + name + ".log")], Some(moves)))
  }

  // ---------------------------------------------------------------------
  // The Picard and GATK wrappers of wrappers.py
  // ---------------------------------------------------------------------

  /**
   * The checkpoint target Picard's `make_target` picks for a subcommand;
   * an unknown one keeps the class attribute ''.
   */
  function PicardTargetFile(sub: string, input: string, host: Host): string {
    var H := host.sha224;
    if sub == "CollectWgsMetrics" then input + "_wgs_stats_picard." + H(input + "_wgs_stats_picard.txt") + ".txt"
    else if sub == "MeanQualityByCycle" then
      input + "._read_qual_by_cycle_picard." + H(input + "._read_qual_by_cycle_picard.txt") + ".txt"
    else if sub == "QualityScoreDistribution" then
      input + "._read_qual_overall_picard." + H(input + "._read_qual_overall_picard.txt") + ".txt"
    else if sub == "MarkDuplicates" then input + "_mark_dup_picard." + H(input + "_mark_dup_picard.txt") + ".txt"
    else if sub == "AddOrReplaceReadGroups" then input + ".rg.srtd.bam" + H(input + ".rg.srtd.bam") + ".txt"
    else if sub == "BuildBamIndex" then input + ".gatk.recal.bam.bai" + H(input + ".gatk.recal.bam.bai") + ".txt"
    else ""
  }

  /**
   * The `add_args_*` method `make_target` calls for a subcommand: the
   * INPUT/OUTPUT arguments, then the user's (CollectWgsMetrics drops
   * them). An unknown subcommand adds nothing.
   */
  function PicardArgs(sub: string, input: string, args: seq<string>, kw: Kwargs): Result<seq<string>> {
    if sub == "CollectWgsMetrics" then
      var i :- JoinOpt(kw.alignDir, input + ".dup.srtd.bam");
      var o :- JoinOpt(kw.qcDir, input + "_wgs_stats_picard.txt");
      var r :- ConcatOpt("REFERENCE_SEQUENCE=", kw.refFastaPath);
      Success(["INPUT=" + i, "OUTPUT=" + o, r, "MINIMUM_MAPPING_QUALITY=20", "MINIMUM_BASE_QUALITY=20",
               "COUNT_UNPAIRED=true", "VALIDATION_STRINGENCY=LENIENT"])
    else if sub == "MeanQualityByCycle" then
      var i :- JoinOpt(kw.alignDir, input + ".dup.srtd.bam");
      var o :- JoinOpt(kw.qcDir, input + "_read_qual_by_cycle_picard.txt");
      var r :- ConcatOpt("REFERENCE_SEQUENCE=", kw.refFastaPath);
      var c :- JoinOpt(kw.qcDir, input + "_mean_qual_by_cycle.pdf");
      Success(["INPUT=" + i, "OUTPUT=" + o, r, "CHART_OUTPUT=" + c, "VALIDATION_STRINGENCY=LENIENT"] + args)
    else if sub == "QualityScoreDistribution" then
      var i :- JoinOpt(kw.alignDir, input + ".dup.srtd.bam");
      var o :- JoinOpt(kw.qcDir, input + "_read_qual_overall_picard.txt");
      var r :- ConcatOpt("REFERENCE_SEQUENCE=", kw.refFastaPath);
      var c :- JoinOpt(kw.qcDir, input + "_mean_qual_overall.pdf");
      Success(["INPUT=" + i, "OUTPUT=" + o, r, "CHART_OUTPUT=" + c, "VALIDATION_STRINGENCY=LENIENT"] + args)
    else PicardArgsLate(sub, input, args, kw)
  }

  /** `add_args_*` for MarkDuplicates, AddOrReplaceReadGroups, BuildBamIndex and unknown subcommands. */
  function PicardArgsLate(sub: string, input: string, args: seq<string>, kw: Kwargs): Result<seq<string>> {
    if sub == "MarkDuplicates" then
      var i :- JoinOpt(kw.alignDir, input + ".rg.srtd.bam");
      var m :- JoinOpt(kw.qcDir, input + "_mark_duplicates_picard.txt");
      var out :- JoinOpt(kw.alignDir, input + (if "REMOVE_DUPLICATES=true" in args then ".dedup" else ".picdup") + ".rg.srtd.bam");
      Success(["INPUT=" + i, "M=" + m, "CREATE_INDEX=true VALIDATION_STRINGENCY=LENIENT"] + ["OUTPUT=" + out] + args)
    else if sub == "AddOrReplaceReadGroups" then
      var i :- JoinOpt(kw.alignDir, input + ".dup.srtd.bam");
      var o :- JoinOpt(kw.alignDir, input + ".rg.srtd.bam");
      Success(["INPUT=" + i, "OUTPUT=" + o, "RGID=" + input, "RGLB=lib1 RGPL=illumina  RGPU=unit1 RGCN=BGI",
               "RGSM=" + input, "VALIDATION_STRINGENCY=LENIENT"] + args)
    else if sub == "BuildBamIndex" then
      var i :- JoinOpt(kw.alignDir, input + ".gatk.recal.bam");
      Success(["INPUT=" + i, "VALIDATION_STRINGENCY=LENIENT"] + args)
    else Success([])
  }

  /** Picard "picard_<Sub>": the target and arguments of the subcommand after the heap argument. */
  function PicardPlan(name: string, input: string, args: seq<string>, kw: Kwargs, host: Host): (r: Result<Plan>)
    ensures r.Success? ==> Fits(r.value, Picard, kw) && TargetRule(r.value, Picard, name, input, args, kw, host)
  {
    var parts := Split(name, '_');
    if |parts| < 2 then Failure("IndexError: list index out of range")
    else
      var added :- PicardArgs(parts[1], input, args, kw);
      var k := kw.(target := Some(PicardTargetFile(parts[1], input, host)));
      Success(Plan(k, None, JoinSplitCmd(name), None, ProfileUpdate(k, DefaultProfile(Picard)),
        Success(Tail(HeapArg(k) + added, None)), "", None))
  }

  /**
   * BaseRecalibrator's arguments after the input and reference: with an
   * exact "-BQSR" argument the first argument containing "-BQSR" is
   * dropped and the recalibration table is read back for the post table.
   */
  function RecalArgs(args: seq<string>, gatk: string, input: string): seq<string> {
    if "-BQSR" in args then
      var i := FirstContaining(args, "-BQSR");
      ContainsSelf("-BQSR");
      RemoveAt(args, i.value)
        + ["-BQSR " + PathJoin(gatk, input + "_recal_table.txt"), "-o " + PathJoin(gatk, input + "_post_recal_table.txt")]
    else args + ["-o " + PathJoin(gatk, input + "_recal_table.txt")]
  }

  /**
   * The checkpoint target GATK's `make_target` picks for a tool (`bqsr`:
   * "-BQSR" is one of the arguments); an unknown tool keeps ''.
   */
  function GatkTargetFile(tool: string, input: string, bqsr: bool, host: Host): string {
    var H := host.sha224;
    if tool == "RealignerTargetCreator" then
      input + ".realign_targets.intervals" + H(input + ".realign_targets.intervals") + ".txt"
    else if tool == "IndelRealigner" then
      input + ".dedup.rg.srtd.realigned.bam" + H(input + ".dedup.rg.srtd.realigned.bam") + ".txt"
    else if tool == "BaseRecalibrator" then
      if bqsr then input + "_post_recal_table" + H(input + "_post_recal_table.txt") + ".txt"
      else input + "_recal_table" + H(input + "_recal_table.txt") + ".txt"
    else if tool == "PrintReads" then input + ".gatk.recal.bam" + H(input + ".gatk.recal.bam") + ".txt"
    else if tool == "HaplotypeCaller" then input + "_GATK-HC.g.vcf" + H(input + "_GATK-HC.g.vcf") + ".txt"
    else if tool == "VariantRecalibrator" then input + "._mark_dup_picard." + H(input + "._mark_dup_picard.txt") + ".vcf"
    else if tool == "AnalyzeCovariates" then
      input + "_recalibration_plots.pdf" + H(input + "_recalibration_plots.pdf") + ".txt"
    else ""
  }

  /** The `add_args_*` method GATK's `make_target` calls for a tool (VariantRecalibrator and unknown tools: none). */
  function GatkArgs(tool: string, input: string, args: seq<string>, kw: Kwargs): Result<seq<string>> {
    if tool == "RealignerTargetCreator" then
      var i :- JoinOpt(kw.alignDir, input + ".dedup.rg.srtd.bam");
      var o :- JoinOpt(kw.gatkDir, input + "_realign_targets.intervals");
      var r :- ConcatOpt("-R ", kw.refFastaPath);
      Success(["-I " + i, "-o " + o, r] + args)
    else if tool == "IndelRealigner" then
      var i :- JoinOpt(kw.alignDir, input + ".dedup.rg.srtd.bam");
      var o :- JoinOpt(kw.alignDir, input + ".dedup.rg.srtd.realigned.bam");
      var r :- ConcatOpt("-R ", kw.refFastaPath);
      var t :- JoinOpt(kw.gatkDir, input + "_realign_targets.intervals");
      Success(["-I " + i, "-o " + o, r, "-targetIntervals " + t] + args)
    else if tool == "BaseRecalibrator" then
      var i :- JoinOpt(kw.alignDir, input + ".dedup.rg.srtd.realigned.bam");
      var r :- ConcatOpt("-R ", kw.refFastaPath);
      var g :- Present(kw.gatkDir);
      Success(["-I " + i, r] + RecalArgs(args, g, input))
    else GatkArgsLate(tool, input, args, kw)
  }

  /** `add_args_*` for PrintReads, HaplotypeCaller, AnalyzeCovariates; nothing for the other tools. */
  function GatkArgsLate(tool: string, input: string, args: seq<string>, kw: Kwargs): Result<seq<string>> {
    if tool == "PrintReads" then
      var i :- JoinOpt(kw.alignDir, input + ".dedup.rg.srtd.realigned.bam");
      var r :- ConcatOpt("-R ", kw.refFastaPath);
      var b :- JoinOpt(kw.gatkDir, input + "_recal_table.txt");
      var o :- JoinOpt(kw.alignDir, input + ".gatk.recal.bam");
      Success(["-I " + i, r, "-BQSR " + b, "-o " + o])
    else if tool == "HaplotypeCaller" then
      var i :- JoinOpt(kw.alignDir, input + ".gatk.recal.bam");
      var r :- ConcatOpt("-R ", kw.refFastaPath);
      var o :- JoinOpt(kw.gatkDir, input + ".GATK-HC.g.vcf");
      Success(["-I " + i, r] + args + ["-o " + o])
    else if tool == "AnalyzeCovariates" then
      var r :- ConcatOpt("-R ", kw.refFastaPath);
      var g :- Present(kw.gatkDir);
      Success([r, "-before " + PathJoin(g, input + "_recal_table.txt"),
               "-after " + PathJoin(g, input + "_post_recal_table.txt"),
               "-plots " + PathJoin(g, input + "_recalibration_plots.pdf")])
    else Success([])
  }

  /** GATK's Java heap flag: 10000M unless a custom profile gives mem. */
  function GatkMem(kw: Kwargs): string {
    if IsCustom(kw) && kw.addJobParms.Some? && "mem" in kw.addJobParms.value then
      " -Xmx" + ValStr(kw.addJobParms.value["mem"]) + "M"
    else " -Xmx10000M"
  }

  /** The program name GATK's second `init` gets: the name's fields with the heap flag and "-T" after the first. */
  function GatkProgram(parts: seq<string>, mem: string): string
    requires |parts| > 0
  {
    Join(" ", [parts[0], mem, "-T"] + parts[1..])
  }

  /**
   * GATK "gatk_<Tool>[_round<n>]": the round suffix is dropped, the
   * wrapper is initialised once with the fields joined by spaces and
   * again with the heap flag and "-T" inserted.
   */
  function GatkPlan(name: string, input: string, args: seq<string>, kw: Kwargs, host: Host): (r: Result<Plan>)
    ensures r.Success? ==> Fits(r.value, Gatk, kw) && TargetRule(r.value, Gatk, name, input, args, kw, host)
  {
    var clean := ProgNameClean(name);
    var parts := Split(clean, '_');
    if |parts| < 2 then Failure("IndexError: list index out of range")
    else
      var added :- GatkArgs(parts[1], input, args, kw);
      var k := kw.(target := Some(GatkTargetFile(parts[1], input, "-BQSR" in args, host)));
      Success(Plan(k, Some(JoinSplitCmd(clean)), GatkProgram(parts, GatkMem(k)), None,
        ProfileUpdate(k, DefaultProfile(Gatk)), Success(Tail(added, None)), "", None))
  }

  /** The constructor of each tool, called as `Tool(name, input, *args, **kwargs)`. */
  function ToolPlan(t: Tool, name: string, input: string, args: seq<string>, kw: Kwargs, host: Host): (r: Result<Plan>)
    ensures r.Success? ==> r.value.kw.jobParms == kw.jobParms && TargetRule(r.value, t, name, input, args, kw, host)
    ensures r.Success? && t != BedtoolsCounts ==> Fits(r.value, t, kw)
    ensures r.Success? && t == BedtoolsCounts ==> r.value.update == Success(map[])
  {
    match t
    case FastQC => Success(FastQCPlan(name, input, args, kw, host))
    case Gsnap => Success(GsnapPlan(name, input, args, kw, host))
    case SamToBam => Success(SamToBamPlan(name, input, args, kw, host))
    case BamToMappedBam => Success(BamToMappedBamPlan(name, input, args, kw, host))
    case BamToUnmappedBam => Success(BamToUnmappedBamPlan(name, input, args, kw, host))
    case SamToolsSort => Success(SamToolsSortPlan(name, input, args, kw, host))
    case SamIndex => Success(SamIndexPlan(name, input, args, kw, host))
    case BiobambamMarkDup => Success(BiobambamMarkDupPlan(name, input, args, kw, host))
    case QualiMap => Success(QualiMapPlan(name, input, args, kw, host))
    case SalmonCounts => Success(SalmonCountsPlan(name, input, args, kw, host))
    case HtSeqCounts => HtSeqCountsPlan(name, input, args, kw, host)
    case Bwa => Success(BwaPlan(name, input, args, kw, host))
    case BedtoolsCounts => Success(BedtoolsCountsPlan(name, input, args, kw, host))
    case Trimmomatic => Success(TrimmomaticPlan(name, input, args, kw, host))
    case Picard => PicardPlan(name, input, args, kw, host)
    case Gatk => GatkPlan(name, input, args, kw, host)
  }
}
