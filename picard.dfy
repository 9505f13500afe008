// The Picard tool family: `make_target` dispatches on the subcommand,
// resolves the input and output suffixes, names the checkpoint file and
// builds the subcommand's arguments on the wrapper's fields; the
// constructor then strips the round, sets the resource profile and the
// heap flag, and builds the command line through the shared plan.
module PicardTools {
  import opened Wrappers
  import opened PyStr
  import opened Params
  import opened BaseWrappers
  import opened NewWrappers
  import Tools

  /** The subcommands `make_target` knows. */
  datatype Sub = CollectWgsMetrics | MeanQualityByCycle | QualityScoreDistribution | MarkDuplicates
    | AddOrReplaceReadGroups | BuildBamIndex | SamToFastq | CollectHsMetrics
    | CollectAlignmentSummaryMetrics | CollectGcBiasMetrics | CollectInsertSizeMetrics

  /** The second '_'-field of the step name, as `make_target` compares it. */
  function SubName(c: Sub): string {
    match c
    case CollectWgsMetrics => "CollectWgsMetrics"
    case MeanQualityByCycle => "MeanQualityByCycle"
    case QualityScoreDistribution => "QualityScoreDistribution"
    case MarkDuplicates => "MarkDuplicates"
    case AddOrReplaceReadGroups => "AddOrReplaceReadGroups"
    case BuildBamIndex => "BuildBamIndex"
    case SamToFastq => "SamToFastq"
    case CollectHsMetrics => "CollectHsMetrics"
    case CollectAlignmentSummaryMetrics => "CollectAlignmentSummaryMetrics"
    case CollectGcBiasMetrics => "CollectGcBiasMetrics"
    case CollectInsertSizeMetrics => "CollectInsertSizeMetrics"
  }

  /** The `elif` chain of `make_target`: the subcommand a field names, if any. */
  function ParseSub(t: string): (r: Option<Sub>)
    ensures r.Some? ==> SubName(r.value) == t
  {
    if t == "CollectWgsMetrics" then Some(CollectWgsMetrics)
    else if t == "MeanQualityByCycle" then Some(MeanQualityByCycle)
    else if t == "QualityScoreDistribution" then Some(QualityScoreDistribution)
    else if t == "MarkDuplicates" then Some(MarkDuplicates)
    else if t == "AddOrReplaceReadGroups" then Some(AddOrReplaceReadGroups)
    else if t == "BuildBamIndex" then Some(BuildBamIndex)
    else ParseSubLate(t)
  }

  function ParseSubLate(t: string): (r: Option<Sub>)
    ensures r.Some? ==> SubName(r.value) == t
  {
    if t == "SamToFastq" then Some(SamToFastq)
    else if t == "CollectHsMetrics" then Some(CollectHsMetrics)
    else if t == "CollectAlignmentSummaryMetrics" then Some(CollectAlignmentSummaryMetrics)
    else if t == "CollectGcBiasMetrics" then Some(CollectGcBiasMetrics)
    else if t == "CollectInsertSizeMetrics" then Some(CollectInsertSizeMetrics)
    else None
  }

  /** Every subcommand is recognised by its own name, so the dispatch misses none. */
  lemma ParseSubName(c: Sub)
    ensures ParseSub(SubName(c)) == Some(c)
  {
  }

  /** The default input and output suffixes of each subcommand. */
  function PicardDefaults(c: Sub): Suffixes {
    match c
    case CollectWgsMetrics => Suffixes(".dup.srtd.bam", "_wgs_stats_picard.txt")
    case MeanQualityByCycle => Suffixes(".dup.srtd.bam", "_read_qual_by_cycle_picard")
    case QualityScoreDistribution => Suffixes(".dup.srtd.bam", "_read_qual_overall_picard")
    case MarkDuplicates => Suffixes(".rg.srtd.bam", ".rg.srtd.bam")
    case AddOrReplaceReadGroups => Suffixes(".dup.srtd.bam", ".rg.srtd.bam")
    case BuildBamIndex => Suffixes(".gatk.recal.bam", "")
    case SamToFastq => Suffixes(".bam", "fq.gz")
    case CollectHsMetrics => Suffixes(".dedup.rg.srtd.realigned.bam", "_hs_metrics.txt")
    case CollectAlignmentSummaryMetrics => Suffixes(".rg.srtd.bam", "_alignment_summary_metrics.txt")
    case CollectGcBiasMetrics => Suffixes(".rg.srtd.bam", "_gc_bias_metrics.txt")
    case CollectInsertSizeMetrics => Suffixes(".rg.srtd.bam", "_insert_size_metrics.txt")
  }

  /** The four metrics whose checkpoint is named after the sample and the step only. */
  predicate NameOnlyTarget(c: Sub) {
    c.CollectHsMetrics? || c.CollectAlignmentSummaryMetrics? || c.CollectGcBiasMetrics? || c.CollectInsertSizeMetrics?
  }

  /** The metrics that write into qc_dir and read the reference sequence. */
  predicate MetricsSub(c: Sub) {
    NameOnlyTarget(c) || c.CollectWgsMetrics? || c.MeanQualityByCycle? || c.QualityScoreDistribution?
  }

  /** The checkpoint name `make_target` gives a subcommand, from the resolved suffixes. */
  function PicardTarget(c: Sub, name: string, input: string, s: Suffixes, host: Host): string {
    match c
    case MeanQualityByCycle | QualityScoreDistribution =>
      input + "_" + name + "_" + s.outSuffix + "_" + host.sha224(input + "_" + name + "_" + s.outSuffix + ".txt") + ".txt"
    case MarkDuplicates =>
      input + "_" + name + "_" + "mark_dup_picard.txt" + "_" + host.sha224(input + "_" + name + "_" + "mark_dup_picard.txt") + ".txt"
    case BuildBamIndex =>
      input + "_" + name + "_" + s.inSuffix + ".bai_" + host.sha224(input + "_" + name + "_" + s.inSuffix + ".bai") + ".txt"
    case SamToFastq =>
      input + "_" + name + "_" + s.inSuffix + "_" + host.sha224(input + "_" + name + "_" + s.inSuffix) + ".txt"
    case CollectHsMetrics | CollectAlignmentSummaryMetrics | CollectGcBiasMetrics | CollectInsertSizeMetrics =>
      input + "_" + name + "_" + host.sha224(input + "_" + name) + ".txt"
    case CollectWgsMetrics | AddOrReplaceReadGroups =>
      input + "_" + name + "_" + s.outSuffix + "_" + host.sha224(input + "_" + name + "_" + s.outSuffix) + ".txt"
  }

  /**
   * The target shapes against the base class's rule: out_suffix for
   * CollectWgsMetrics and AddOrReplaceReadGroups, in_suffix + ".bai" for
   * BuildBamIndex, in_suffix for SamToFastq, a fixed text for
   * MarkDuplicates; the two quality plots hash their key with ".txt"
   * appended; the name-only metrics ignore the suffixes altogether.
   */
  lemma PicardTargetKeys(c: Sub, name: string, input: string, s: Suffixes, s': Suffixes, host: Host)
    ensures c.CollectWgsMetrics? || c.AddOrReplaceReadGroups? ==>
      PicardTarget(c, name, input, s, host) == NewTarget(input, name, s.outSuffix, host)
    ensures c.MarkDuplicates? ==>
      PicardTarget(c, name, input, s, host) == NewTarget(input, name, "mark_dup_picard.txt", host)
    ensures c.BuildBamIndex? ==>
      PicardTarget(c, name, input, s, host) == NewTarget(input, name, s.inSuffix + ".bai", host)
    ensures c.SamToFastq? ==>
      PicardTarget(c, name, input, s, host) == NewTarget(input, name, s.inSuffix, host)
    ensures c.MeanQualityByCycle? || c.QualityScoreDistribution? ==>
      var key := input + ("_" + name + "_") + s.outSuffix;
      PicardTarget(c, name, input, s, host) == key + "_" + host.sha224(key + ".txt") + ".txt"
    ensures NameOnlyTarget(c) || c.MarkDuplicates? ==>
      PicardTarget(c, name, input, s, host) == PicardTarget(c, name, input, s', host)
  {
    var nm := "_" + name + "_";
    assert input + "_" + name + "_" == input + nm;
    assert input + "_" + name + "_" + s.outSuffix == input + nm + s.outSuffix;
    assert input + "_" + name + "_" + s.inSuffix == input + nm + s.inSuffix;
    assert input + "_" + name + "_" + s.inSuffix + ".bai" == input + nm + (s.inSuffix + ".bai");
    assert input + nm + s.inSuffix + ".bai_" == input + nm + (s.inSuffix + ".bai") + "_";
  }

  /** `os.path.join(kwargs.get('align_dir'), input + in_suffix)` as the first argument. */
  function InputArg(input: string, s: Suffixes, kw: Kwargs): (r: Result<string>)
    ensures r.Success? <==> kw.alignDir.Some?
    ensures r.Success? ==> r.value == "INPUT=" + PathJoin(kw.alignDir.value, input + s.inSuffix)
  {
    var i :- JoinOpt(kw.alignDir, input + s.inSuffix);
    Success("INPUT=" + i)
  }

  /** The arguments every subcommand gives: INPUT first, the user's arguments last. */
  predicate Framed(a: seq<string>, input: string, s: Suffixes, args: seq<string>, kw: Kwargs)
    requires kw.alignDir.Some?
  {
    |a| > |args| && a[0] == "INPUT=" + PathJoin(kw.alignDir.value, input + s.inSuffix) &&
    a[|a| - |args|..] == args
  }

  /** `add_args_collect_alignment_summary_metrics`. */
  function AlignmentSummaryArgs(input: string, args: seq<string>, s: Suffixes, kw: Kwargs): (r: Result<seq<string>>)
    ensures r.Success? <==> kw.alignDir.Some? && kw.qcDir.Some? && kw.refFastaPath.Some?
    ensures r.Success? ==> Framed(r.value, input, s, args, kw)
  {
    var i :- InputArg(input, s, kw);
    var o :- JoinOpt(kw.qcDir, input + s.outSuffix);
    var ref :- ConcatOpt("REFERENCE_SEQUENCE=", kw.refFastaPath);
    Success([i, "OUTPUT=" + o, ref] + args)
  }

  /** `add_args_collect_gcbias_metrics`: the chart and summary files are derived from out_suffix. */
  function GcBiasArgs(input: string, args: seq<string>, s: Suffixes, kw: Kwargs): (r: Result<seq<string>>)
    ensures r.Success? <==> kw.alignDir.Some? && kw.qcDir.Some? && kw.refFastaPath.Some?
    ensures r.Success? ==> Framed(r.value, input, s, args, kw)
  {
    var i :- InputArg(input, s, kw);
    var o :- JoinOpt(kw.qcDir, input + s.outSuffix);
    var ref :- ConcatOpt("REFERENCE_SEQUENCE=", kw.refFastaPath);
    Success([i, "OUTPUT=" + o,
             "CHART=" + PathJoin(kw.qcDir.value, input + Replace(s.outSuffix, ".txt", "_plots.pdf")),
             "SUMMARY_OUTPUT=" + PathJoin(kw.qcDir.value, input + "_summary" + s.outSuffix), ref] + args)
  }

  /** `add_args_collect_insert_size_metrics`: the histogram is derived from out_suffix. */
  function InsertSizeArgs(input: string, args: seq<string>, s: Suffixes, kw: Kwargs): (r: Result<seq<string>>)
    ensures r.Success? <==> kw.alignDir.Some? && kw.qcDir.Some? && kw.refFastaPath.Some?
    ensures r.Success? ==> Framed(r.value, input, s, args, kw)
  {
    var i :- InputArg(input, s, kw);
    var o :- JoinOpt(kw.qcDir, input + s.outSuffix);
    var ref :- ConcatOpt("REFERENCE_SEQUENCE=", kw.refFastaPath);
    Success([i, "OUTPUT=" + o,
             "HISTOGRAM_FILE=" + PathJoin(kw.qcDir.value, input + Replace(s.outSuffix, ".txt", "_histogram.pdf")),
             ref] + args)
  }

  /** `add_args_collect_hs_metrics`: the per-target coverage is derived from out_suffix. */
  function HsArgs(input: string, args: seq<string>, s: Suffixes, kw: Kwargs): (r: Result<seq<string>>)
    ensures r.Success? <==> kw.alignDir.Some? && kw.qcDir.Some? && kw.refFastaPath.Some?
    ensures r.Success? ==> Framed(r.value, input, s, args, kw)
  {
    var i :- InputArg(input, s, kw);
    var o :- JoinOpt(kw.qcDir, input + s.outSuffix);
    var ref :- ConcatOpt("REFERENCE_SEQUENCE=", kw.refFastaPath);
    Success([i, "OUTPUT=" + o,
             "PER_TARGET_COVERAGE=" + PathJoin(kw.qcDir.value, input + Replace(s.outSuffix, ".txt", "_per_target_cov.txt")),
             ref] + args)
  }

  /** `add_args_collect_wgs_metrics`: fixed quality thresholds before the user's arguments. */
  function WgsArgs(input: string, args: seq<string>, s: Suffixes, kw: Kwargs): (r: Result<seq<string>>)
    ensures r.Success? <==> kw.alignDir.Some? && kw.qcDir.Some? && kw.refFastaPath.Some?
    ensures r.Success? ==> Framed(r.value, input, s, args, kw)
  {
    var i :- InputArg(input, s, kw);
    var o :- JoinOpt(kw.qcDir, input + s.outSuffix);
    var ref :- ConcatOpt("REFERENCE_SEQUENCE=", kw.refFastaPath);
    Success([i, "OUTPUT=" + o, ref, "MINIMUM_MAPPING_QUALITY=20", "MINIMUM_BASE_QUALITY=20",
             "COUNT_UNPAIRED=true", "VALIDATION_STRINGENCY=LENIENT"] + args)
  }

  /**
   * `add_args_quality_score_distribution`, and `add_args_mean_quality_by_cycle`
   * as evidently intended: a ".txt" table and a ".pdf" chart named after out_suffix.
   */
  function QualityArgs(input: string, args: seq<string>, s: Suffixes, kw: Kwargs): (r: Result<seq<string>>)
    ensures r.Success? <==> kw.alignDir.Some? && kw.qcDir.Some? && kw.refFastaPath.Some?
    ensures r.Success? ==> Framed(r.value, input, s, args, kw)
  {
    var i :- InputArg(input, s, kw);
    var o :- JoinOpt(kw.qcDir, input + s.outSuffix + ".txt");
    var ref :- ConcatOpt("REFERENCE_SEQUENCE=", kw.refFastaPath);
    Success([i, "OUTPUT=" + o, ref, "CHART_OUTPUT=" + PathJoin(kw.qcDir.value, input + s.outSuffix + ".pdf"),
             "VALIDATION_STRINGENCY=LENIENT"] + args)
  }

  /**
   * `add_args_mean_quality_by_cycle` as written: `input + + self.out_suffix`
   * applies unary plus to a string, which raises once the INPUT path is built.
   */
  function MeanQualityArgsAsWritten(input: string, args: seq<string>, s: Suffixes, kw: Kwargs): (r: Result<seq<string>>)
    ensures r.Failure?
    ensures kw.alignDir.Some? ==> r == Failure(UnaryPlusError)
  {
    var i :- InputArg(input, s, kw);
    Failure(UnaryPlusError)
  }

  const UnaryPlusError: string := "TypeError: bad operand type for unary +: 'str'"

  /** As written MeanQualityByCycle can never build its arguments, though the intended ones exist whenever the directories are given. */
  lemma MeanQualityAlwaysFails(input: string, args: seq<string>, s: Suffixes, kw: Kwargs)
    requires kw.alignDir.Some? && kw.qcDir.Some? && kw.refFastaPath.Some?
    ensures MeanQualityArgsAsWritten(input, args, s, kw) == Failure(UnaryPlusError)
    ensures QualityArgs(input, args, s, kw).Success?
  {
  }

  /** `add_args_addorreplacereadgroups`: the output stays in align_dir and the read group is the sample. */
  function ReadGroupArgs(input: string, args: seq<string>, s: Suffixes, kw: Kwargs): (r: Result<seq<string>>)
    ensures r.Success? <==> kw.alignDir.Some?
    ensures r.Success? ==> Framed(r.value, input, s, args, kw)
  {
    var i :- InputArg(input, s, kw);
    Success([i, "OUTPUT=" + PathJoin(kw.alignDir.value, input + s.outSuffix), "RGID=" + input,
             "RGLB=lib1 RGPL=illumina  RGPU=unit1 RGCN=BGI", "RGSM=" + input,
             "VALIDATION_STRINGENCY=LENIENT"] + args)
  }

  /** The out_suffix `add_args_markduplicates` leaves: ".dedup" or ".picdup" in front. */
  function MarkDupSuffix(args: seq<string>, out: string): string {
    (if "REMOVE_DUPLICATES=true" in args then ".dedup" else ".picdup") + out
  }

  /** `add_args_markduplicates`, given the out_suffix it has already rewritten. */
  function MarkDupArgs(input: string, args: seq<string>, s: Suffixes, kw: Kwargs): (r: Result<seq<string>>)
    ensures r.Success? <==> kw.alignDir.Some? && kw.qcDir.Some?
    ensures r.Success? ==>
      (Framed(r.value, input, s, args, kw) && |r.value| == 4 + |args| &&
       r.value[3] == "OUTPUT=" + PathJoin(kw.alignDir.value, input + s.outSuffix))
  {
    var i :- InputArg(input, s, kw);
    var m :- JoinOpt(kw.qcDir, input + "_mark_duplicates_picard.txt");
    Success([i, "M=" + m, "CREATE_INDEX=true VALIDATION_STRINGENCY=LENIENT",
             "OUTPUT=" + PathJoin(kw.alignDir.value, input + s.outSuffix)] + args)
  }

  /** `add_args_buildbamindex` and `add_args_samtofastq`. */
  function LenientArgs(input: string, args: seq<string>, s: Suffixes, kw: Kwargs): (r: Result<seq<string>>)
    ensures r.Success? <==> kw.alignDir.Some?
    ensures r.Success? ==> Framed(r.value, input, s, args, kw)
  {
    var i :- InputArg(input, s, kw);
    Success([i, "VALIDATION_STRINGENCY=LENIENT"] + args)
  }

  /**
   * The `add_args_*` of the metrics, which all need qc_dir and the
   * reference; MeanQualityByCycle's, as written, raises TypeError once its
   * INPUT path is built.
   */
  function MetricsArgs(c: Sub, input: string, args: seq<string>, s: Suffixes, kw: Kwargs): (r: Result<seq<string>>)
    requires MetricsSub(c)
    ensures r.Success? <==> !c.MeanQualityByCycle? && kw.alignDir.Some? && kw.qcDir.Some? && kw.refFastaPath.Some?
    ensures c.MeanQualityByCycle? && kw.alignDir.Some? ==> r == Failure(UnaryPlusError)
    ensures r.Success? ==> Framed(r.value, input, s, args, kw)
  {
    match c
    case CollectWgsMetrics => WgsArgs(input, args, s, kw)
    case MeanQualityByCycle => MeanQualityArgsAsWritten(input, args, s, kw)
    case QualityScoreDistribution => QualityArgs(input, args, s, kw)
    case CollectHsMetrics => HsArgs(input, args, s, kw)
    case CollectAlignmentSummaryMetrics => AlignmentSummaryArgs(input, args, s, kw)
    case CollectGcBiasMetrics => GcBiasArgs(input, args, s, kw)
    case CollectInsertSizeMetrics => InsertSizeArgs(input, args, s, kw)
  }

  /** The `add_args_*` of the file-rewriting subcommands. */
  function RewriteArgs(c: Sub, input: string, args: seq<string>, s: Suffixes, kw: Kwargs): (r: Result<seq<string>>)
    requires !MetricsSub(c)
    ensures r.Success? <==> kw.alignDir.Some? && (c.MarkDuplicates? ==> kw.qcDir.Some?)
    ensures r.Success? ==> Framed(r.value, input, s, args, kw)
  {
    match c
    case MarkDuplicates => MarkDupArgs(input, args, s, kw)
    case AddOrReplaceReadGroups => ReadGroupArgs(input, args, s, kw)
    case BuildBamIndex | SamToFastq => LenientArgs(input, args, s, kw)
  }

  /**
   * The subcommand's `add_args_*`, on the suffixes as they stand when it
   * runs (for MarkDuplicates, after its rewrite of out_suffix). It fails
   * exactly when a directory or the reference it needs is missing.
   */
  function PicardArgs(c: Sub, input: string, args: seq<string>, s: Suffixes, kw: Kwargs): (r: Result<seq<string>>)
    ensures r.Success? <==>
      (!c.MeanQualityByCycle? && kw.alignDir.Some? && (MetricsSub(c) || c.MarkDuplicates? ==> kw.qcDir.Some?) &&
       (MetricsSub(c) ==> kw.refFastaPath.Some?))
    ensures c.MeanQualityByCycle? && kw.alignDir.Some? ==> r == Failure(UnaryPlusError)
    ensures r.Success? ==> Framed(r.value, input, s, args, kw)
  {
    if MetricsSub(c) then MetricsArgs(c, input, args, s, kw) else RewriteArgs(c, input, args, s, kw)
  }

  const IndexError: string := "IndexError: list index out of range"

  /**
   * `make_target` on the wrapper's fields: an unknown subcommand changes
   * nothing; a known one resolves the suffixes, names the checkpoint,
   * rewrites out_suffix (MarkDuplicates only) and sets add_args.
   */
  function PicardMake(prev: Fields, name: string, input: string, args: seq<string>, kw: Kwargs, host: Host): Result<Fields> {
    var parts := Split(name, '_');
    if |parts| < 2 then Failure(IndexError)
    else
      match ParseSub(parts[1])
      case None => Success(prev)
      case Some(c) =>
        var d := PicardDefaults(c);
        var s :- FileSuffix(kw, Some(d.inSuffix), Some(d.outSuffix));
        var s2 := if c.MarkDuplicates? then s.(outSuffix := MarkDupSuffix(args, s.outSuffix)) else s;
        var a :- PicardArgs(c, input, args, s2, kw);
        Success(Fields(s2.inSuffix, s2.outSuffix, Some(PicardTarget(c, name, input, s, host)), a, prev.stdout))
  }

  /** `Picard.make_target` and the `add_args_*` it calls, updating the wrapper's fields in place. */
  method PicardMakeTarget(f: SuffixFields, name: string, input: string, args: seq<string>, kw: Kwargs, host: Host)
    returns (r: Result<()>)
    modifies f
    ensures r.Success? <==> PicardMake(old(f.State()), name, input, args, kw, host).Success?
    ensures r.Success? ==> f.State() == PicardMake(old(f.State()), name, input, args, kw, host).value
    ensures r.Failure? ==> r.error == PicardMake(old(f.State()), name, input, args, kw, host).error
  {
    var parts := Split(name, '_');
    if |parts| < 2 {
      return Failure(IndexError);
    }
    var c := ParseSub(parts[1]);
    if c.None? {
      return Success(());
    }
    var d := PicardDefaults(c.value);
    r := f.UpdateFileSuffix(Some(d.inSuffix), Some(d.outSuffix), kw);
    if r.Failure? {
      return;
    }
    f.target := Some(PicardTarget(c.value, name, input, Suffixes(f.inSuffix, f.outSuffix), host));
    f.ResetAddArgs();
    if c.value.MarkDuplicates? {
      f.outSuffix := MarkDupSuffix(args, f.outSuffix);
    }
    var a := PicardArgs(c.value, input, args, Suffixes(f.inSuffix, f.outSuffix), kw);
    if a.Failure? {
      return Failure(a.error);
    }
    f.addArgs := a.value;
  }

  /**
   * MarkDuplicates: out_suffix gains ".dedup" exactly when
   * "REMOVE_DUPLICATES=true" is one of the arguments, ".picdup" otherwise;
   * OUTPUT names the rewritten suffix while the target keeps the fixed
   * 'mark_dup_picard.txt' key.
   */
  lemma PicardMarkDuplicates(prev: Fields, name: string, input: string, args: seq<string>, kw: Kwargs, host: Host)
    requires |Split(name, '_')| >= 2 && ParseSub(Split(name, '_')[1]) == Some(MarkDuplicates)
    requires PicardMake(prev, name, input, args, kw, host).Success?
    ensures var f := PicardMake(prev, name, input, args, kw, host).value;
      var s := FileSuffix(kw, Some(".rg.srtd.bam"), Some(".rg.srtd.bam")).value;
      f.outSuffix == (if "REMOVE_DUPLICATES=true" in args then ".dedup" + s.outSuffix else ".picdup" + s.outSuffix) &&
      f.target == Some(NewTarget(input, name, "mark_dup_picard.txt", host)) &&
      f.addArgs[3] == "OUTPUT=" + PathJoin(kw.alignDir.value, input + f.outSuffix)
  {
    var s := FileSuffix(kw, Some(".rg.srtd.bam"), Some(".rg.srtd.bam")).value;
    PicardTargetKeys(MarkDuplicates, name, input, s, s, host);
  }

  /**
   * Outside custom mode a known subcommand takes the table's suffixes
   * (MarkDuplicates then prefixes its output), every argument list opens
   * with INPUT and ends with the user's arguments, and a target is set.
   */
  lemma PicardStandardSuffixes(prev: Fields, name: string, input: string, args: seq<string>, kw: Kwargs, host: Host)
    requires |Split(name, '_')| >= 2 && ParseSub(Split(name, '_')[1]).Some?
    requires kw.suffixType.Some? && kw.suffixType.value != "custom"
    requires PicardMake(prev, name, input, args, kw, host).Success?
    ensures var c := ParseSub(Split(name, '_')[1]).value;
      var d := PicardDefaults(c);
      var f := PicardMake(prev, name, input, args, kw, host).value;
      f.inSuffix == d.inSuffix &&
      f.outSuffix == (if c.MarkDuplicates? then MarkDupSuffix(args, d.outSuffix) else d.outSuffix) &&
      f.target == Some(PicardTarget(c, name, input, d, host)) &&
      Framed(f.addArgs, input, Suffixes(f.inSuffix, f.outSuffix), args, kw)
  {
    var c := ParseSub(Split(name, '_')[1]).value;
    var d := PicardDefaults(c);
    FileSuffixStandard(kw, Some(d.inSuffix), Some(d.outSuffix));
  }

  /**
   * The derived files of CollectGcBiasMetrics: CHART replaces ".txt" in
   * out_suffix by "_plots.pdf"; an out_suffix without ".txt" makes CHART
   * the same file as OUTPUT.
   */
  lemma GcBiasChart(input: string, args: seq<string>, s: Suffixes, kw: Kwargs)
    requires GcBiasArgs(input, args, s, kw).Success?
    ensures var a := GcBiasArgs(input, args, s, kw).value;
      a[1] == "OUTPUT=" + PathJoin(kw.qcDir.value, input + s.outSuffix) &&
      a[2] == "CHART=" + PathJoin(kw.qcDir.value, input + Replace(s.outSuffix, ".txt", "_plots.pdf")) &&
      a[3] == "SUMMARY_OUTPUT=" + PathJoin(kw.qcDir.value, input + "_summary" + s.outSuffix) &&
      (!Contains(s.outSuffix, ".txt") ==> a[2][6..] == a[1][7..])
  {
    if !Contains(s.outSuffix, ".txt") {
      ReplaceAbsent(s.outSuffix, ".txt", "_plots.pdf");
    }
  }

  /** The derived files of CollectInsertSizeMetrics and CollectHsMetrics, the same rule with another ending. */
  lemma DerivedOutputs(input: string, args: seq<string>, s: Suffixes, kw: Kwargs)
    requires kw.alignDir.Some? && kw.qcDir.Some? && kw.refFastaPath.Some?
    ensures InsertSizeArgs(input, args, s, kw).value[2] ==
      "HISTOGRAM_FILE=" + PathJoin(kw.qcDir.value, input + Replace(s.outSuffix, ".txt", "_histogram.pdf"))
    ensures HsArgs(input, args, s, kw).value[2] ==
      "PER_TARGET_COVERAGE=" + PathJoin(kw.qcDir.value, input + Replace(s.outSuffix, ".txt", "_per_target_cov.txt"))
    ensures !Contains(s.outSuffix, ".txt") ==>
      Replace(s.outSuffix, ".txt", "_histogram.pdf") == s.outSuffix &&
      Replace(s.outSuffix, ".txt", "_per_target_cov.txt") == s.outSuffix
  {
    if !Contains(s.outSuffix, ".txt") {
      ReplaceAbsent(s.outSuffix, ".txt", "_histogram.pdf");
      ReplaceAbsent(s.outSuffix, ".txt", "_per_target_cov.txt");
    }
  }

  /**
   * `Picard(name, input, *args, **kwargs)` up to `setup_run`: prog_id is
   * the name as given, the round-stripped name is dispatched on, and an
   * unknown subcommand leaves no target, which raises.
   */
  function PicardNew(name: string, input: string, args: seq<string>, kw: Kwargs, host: Host): Result<Tools.Plan> {
    var f :- PicardMake(StartFields(), ProgNameClean(name), input, args, kw, host);
    if f.target.None? then Failure(NoTarget) else Success(PicardPlan(name, f, kw))
  }

  const NoTarget: string := "AttributeError: 'Picard' object has no attribute 'target'"

  /** The rest of the constructor, once `make_target` has set the fields. */
  function PicardPlan(name: string, f: Fields, kw: Kwargs): Tools.Plan
    requires f.target.Some?
  {
    var k := kw.(progId := Some(name), target := f.target);
    Tools.Plan(k, None, JoinSplitCmd(ProgNameClean(name)), None, Tools.ProfileUpdate(k, Tools.Profile(10000, 80, 4)),
      Success(Tools.Tail(Tools.HeapArg(k) + f.addArgs, None)), "", None)
  }

  /**
   * `Picard(name, input, *args, **kwargs)`: the fields `make_target` sets,
   * then the wrapper object and the shared job_parms update. A failing
   * `make_target` raises before job_parms is touched.
   */
  method NewPicard(name: string, input: string, args: seq<string>, kw: Kwargs, host: Host)
    returns (f: SuffixFields, w: Wrapper?, r: Result<()>)
    modifies kw.jobParms
    ensures fresh(f)
    ensures r.Success? <==>
      (PicardNew(name, input, args, kw, host).Success? &&
       Tools.Run(PicardNew(name, input, args, kw, host).value, input, host).Success?)
    ensures r.Success? ==> w != null && w.State() == Tools.Run(PicardNew(name, input, args, kw, host).value, input, host).value
    ensures PicardNew(name, input, args, kw, host).Failure? ==>
      r == Failure(PicardNew(name, input, args, kw, host).error) && (kw.jobParms != null ==> unchanged(kw.jobParms))
    ensures PicardNew(name, input, args, kw, host).Success? && kw.jobParms != null ==>
      kw.jobParms.entries == Tools.UpdatedParms(PicardNew(name, input, args, kw, host).value, old(kw.jobParms.entries))
  {
    f := new SuffixFields();
    var m := PicardMakeTarget(f, ProgNameClean(name), input, args, kw, host);
    if m.Failure? {
      return f, null, m;
    }
    if f.target.None? {
      return f, null, Failure(NoTarget);
    }
    var p := PicardPlan(name, f.State(), kw);
    w, r := Tools.Build(p, input, host);
  }

  /**
   * The constructor keeps the original name as prog_id and runs the
   * round-stripped one, whose target is `make_target`'s; the default
   * profile is mem 10000, time 80, ncpus 4 with a 10000M heap flag in
   * front of the subcommand's arguments.
   */
  lemma PicardDefaultProfile(name: string, input: string, args: seq<string>, kw: Kwargs, host: Host)
    requires PicardNew(name, input, args, kw, host).Success?
    requires !IsCustom(kw) && kw.jobParms != null
    ensures var p := PicardNew(name, input, args, kw, host).value;
      var f := PicardMake(StartFields(), ProgNameClean(name), input, args, kw, host).value;
      p.kw.progId == Some(name) && p.kw.target == f.target && f.target.Some? &&
      p.name == JoinSplitCmd(ProgNameClean(name)) &&
      p.update == Success(Tools.Profile(10000, 80, 4)) &&
      p.tail == Success(Tools.Tail([" -Xmx10000M"] + f.addArgs, None))
  {
  }

  /** A custom profile is the caller's, with a heap flag only when it gives mem. */
  lemma PicardCustomProfile(name: string, input: string, args: seq<string>, kw: Kwargs, host: Host)
    requires PicardNew(name, input, args, kw, host).Success?
    requires IsCustom(kw) && kw.jobParms != null && kw.addJobParms.Some?
    ensures var p := PicardNew(name, input, args, kw, host).value;
      var f := PicardMake(StartFields(), ProgNameClean(name), input, args, kw, host).value;
      var add := kw.addJobParms.value;
      p.update == Success(add) &&
      p.tail == Success(Tools.Tail((if "mem" in add then [" -Xmx" + ValStr(add["mem"]) + "M"] else []) + f.addArgs, None))
  {
  }

  /**
   * A MeanQualityByCycle wrapper cannot be constructed: once its suffixes
   * resolve and align_dir is given, `make_target` raises the unary-plus
   * TypeError before job_parms is touched.
   */
  lemma PicardMeanQualityRaises(name: string, input: string, args: seq<string>, kw: Kwargs, host: Host)
    requires |Split(ProgNameClean(name), '_')| >= 2 && ParseSub(Split(ProgNameClean(name), '_')[1]) == Some(MeanQualityByCycle)
    requires kw.alignDir.Some?
    requires var d := PicardDefaults(MeanQualityByCycle); FileSuffix(kw, Some(d.inSuffix), Some(d.outSuffix)).Success?
    ensures PicardNew(name, input, args, kw, host) == Failure(UnaryPlusError)
  {
  }

  /** A subcommand outside the table sets no target, so the constructor raises AttributeError. */
  lemma PicardUnknownSubcommand(name: string, input: string, args: seq<string>, kw: Kwargs, host: Host)
    requires |Split(ProgNameClean(name), '_')| >= 2 && ParseSub(Split(ProgNameClean(name), '_')[1]).None?
    ensures PicardNew(name, input, args, kw, host) == Failure(NoTarget)
  {
  }
}
