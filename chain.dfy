// What `chain_commands` of RnaSeqFlow, DnaSeqFlow and GatkFlow
// (bioflows/definedworkflows/rnaseq/rnaseqworkflow.py) builds for each
// sample: the wrapper constructor calls it makes, in order, with the
// kwargs each one gets, and the encoded wrappers and task chains that
// result. The shared kwargs `new_base_kwargs` and the two job_parms
// dictionaries are threaded through as a state; an exception stops the
// run where it is raised.
module Chain {
  import opened Wrappers
  import opened PyStr
  import opened Params
  import opened BaseWrappers
  import opened Tools
  import opened Compile
  import opened Tasks
  import opened Dicts

  /** The three workflows with a `chain_commands`. */
  datatype Flow = RnaSeq | DnaSeq | GatkSeq

  /** The step that expands into the seven alignment records. */
  function Aligner(f: Flow): string {
    if f == RnaSeq then "gsnap" else "bwa_mem"
  }

  /** `prog_wrappers`: the registry of wrapper constructors every workflow looks steps up in. */
  const Registry: map<string, Tool> := map[
    "feature_counts" := BedtoolsCounts, "gsnap" := Gsnap, "fastqc" := FastQC,
    "qualimap_rnaseq" := QualiMap, "qualimap_bamqc" := QualiMap, "samtobam" := SamToBam,
    "bamtomapped" := BamToMappedBam, "bamtounmapped" := BamToUnmappedBam, "samindex" := SamIndex,
    "samsort" := SamToolsSort, "bammarkduplicates2" := BiobambamMarkDup, "salmon" := SalmonCounts,
    "htseq-count" := HtSeqCounts, "bwa_mem" := Bwa,
    "picard_CollectWgsMetrics" := Picard, "picard_MarkDuplicates" := Picard,
    "picard_BuildBamIndex" := Picard, "picard_AddOrReplaceReadGroups" := Picard,
    "gatk_RealignerTargetCreator" := Gatk, "gatk_IndelRealigner" := Gatk,
    "gatk_BaseRecalibrator" := Gatk, "gatk_PrintReads" := Gatk,
    "gatk_HaplotypeCaller" := Gatk, "gatk_AnalyzeCovariates" := Gatk]

  // ---------------------------------------------------------------------
  // update_job_parms
  // ---------------------------------------------------------------------

  /**
   * `update_job_parms(key)` on the shared `new_base_kwargs`: a custom
   * declaration marks them custom with its parameters; 'default' leaves
   * them as they are, so nothing ever resets them.
   */
  function UpdateKw(nk: Kwargs, jp: JobParams): Kwargs {
    match jp
    case DefaultParams => nk
    case CustomParams(m) => nk.(jobParmsType := Some("custom"), addJobParms := Some(m))
  }

  /** Calling `update_job_parms` twice with one key is calling it once. */
  lemma UpdateKwIdempotent(nk: Kwargs, jp: JobParams)
    ensures UpdateKw(UpdateKw(nk, jp), jp) == UpdateKw(nk, jp)
  {
  }

  /** The kwargs after `update_job_parms` for each key in turn. */
  function UpdateAll(nk: Kwargs, keys: seq<string>, jps: map<string, JobParams>): Kwargs
    requires forall k :: k in keys ==> k in jps
    decreases |keys|
  {
    if keys == [] then nk
    else
      var n := |keys| - 1;
      UpdateKw(UpdateAll(nk, keys[..n], jps), jps[keys[n]])
  }

  /** The parameters of the last key declared custom, if any. */
  function LastCustom(keys: seq<string>, jps: map<string, JobParams>): Option<map<string, Val>>
    requires forall k :: k in keys ==> k in jps
    decreases |keys|
  {
    if keys == [] then None
    else
      var n := |keys| - 1;
      if jps[keys[n]].CustomParams? then Some(jps[keys[n]].m) else LastCustom(keys[..n], jps)
  }

  /**
   * The custom mode is sticky: after any sequence of keys the kwargs carry
   * the parameters of the last custom key among them (whatever default
   * keys came after it), and are untouched when none was custom.
   */
  lemma {:induction false} UpdateAllLastCustom(nk: Kwargs, keys: seq<string>, jps: map<string, JobParams>)
    requires forall k :: k in keys ==> k in jps
    ensures LastCustom(keys, jps).None? ==> UpdateAll(nk, keys, jps) == nk
    ensures LastCustom(keys, jps).Some? ==>
      UpdateAll(nk, keys, jps) == nk.(jobParmsType := Some("custom"), addJobParms := LastCustom(keys, jps))
    decreases |keys|
  {
    if keys != [] {
      var n := |keys| - 1;
      assert forall k :: k in keys[..n] ==> k in keys;
      UpdateAllLastCustom(nk, keys[..n], jps);
    }
  }

  /** Updating over two runs of keys is updating over their concatenation, so the mode carries across samples. */
  lemma {:induction false} UpdateAllAppend(nk: Kwargs, a: seq<string>, b: seq<string>, jps: map<string, JobParams>)
    requires forall k :: k in a + b ==> k in jps
    ensures forall k :: k in a ==> k in jps
    ensures forall k :: k in b ==> k in jps
    ensures UpdateAll(UpdateAll(nk, a, jps), b, jps) == UpdateAll(nk, a + b, jps)
    decreases |b|
  {
    assert forall k :: k in a ==> k in a + b;
    assert forall k :: k in b ==> k in a + b;
    if b != [] {
      var n := |b| - 1;
      assert (a + b)[..|a| + n] == a + b[..n];
      assert (a + b)[|a| + n] == b[n];
      assert forall k :: k in b[..n] ==> k in b;
      assert forall k :: k in a + b[..n] ==> k in a + b;
      UpdateAllAppend(nk, a, b[..n], jps);
    } else {
      assert a + b == a;
    }
  }

  // ---------------------------------------------------------------------
  // The calls made for one key
  // ---------------------------------------------------------------------

  /** The directories the records' stdout files go to: log_dir, align_dir and run_parms' work_dir and log_dir. */
  datatype LogDirs = LogDirs(logDir: string, alignDir: string, runWorkDir: string, runLogDir: string)

  /**
   * One constructor call: the registry key looked up, the name and extra
   * arguments passed, the kwargs, and whether those are `new_base_kwargs`
   * (and so write the second job_parms dictionary).
   */
  datatype Call = Call(key: string, name: string, args: seq<string>, kw: Kwargs, fromNew: bool)

  /** `stdout=path, **dict(kwargs)` */
  function Logged(kw: Kwargs, path: string): Kwargs {
    kw.(stdout := Some(path))
  }

  /** The aligner key's seven constructor calls, in list order. */
  function AlignerCalls(key: string, samp: string, args: seq<string>, base: Kwargs, nk: Kwargs, d: LogDirs): seq<Call> {
    [Call("bammarkduplicates2", "bammarkduplicates2", [], Logged(base, PathJoin(d.logDir, samp + "_bamdup.log")), false),
     Call("samindex", "samtools", [], Logged(base, PathJoin(d.logDir, samp + "_bamidx.log")), false),
     Call("samsort", "samtools", [], Logged(nk, PathJoin(d.logDir, samp + "_bamsrt.log")), true),
     Call("bamtomapped", "samtools", [], Logged(base, PathJoin(d.logDir, samp + "_bamtomappedbam.log")), false),
     Call("bamtounmapped", "samtools", [], Logged(base, PathJoin(d.logDir, samp + "_bamtounmappedbam.log")), false),
     Call("samtobam", "samtools", [], Logged(base, PathJoin(d.logDir, samp + "_samtobam.log")), false),
     Call(key, key, args, Logged(nk, PathJoin(d.alignDir, samp + ".sam")), true)]
  }

  /** The registry key a round step is looked up under: stripped in DnaSeqFlow only. */
  function RoundLookup(f: Flow, key: string): string {
    if f == DnaSeq then StrippedLookup(key) else key
  }

  /**
   * The calls for one key of `progs`: the aligner's seven, one call named
   * by the stripped key for a round key, and one call for any other key.
   */
  function KeyCalls(f: Flow, key: string, samp: string, args: seq<string>, base: Kwargs, nk: Kwargs, d: LogDirs): seq<Call> {
    if key == Aligner(f) then AlignerCalls(key, samp, args, base, nk, d)
    else
      var out := Logged(nk, PathJoin3(d.runWorkDir, d.runLogDir, samp + "_" + key + ".log"));
      if Contains(key, "round") then [Call(RoundLookup(f, key), ProgNameClean(key), args, out, true)]
      else [Call(key, key, args, out, true)]
  }

  /** The calls' registry keys, in order. */
  function CallKeys(cs: seq<Call>): (r: seq<string>)
    ensures |r| == |cs|
    ensures forall i :: 0 <= i < |cs| ==> r[i] == cs[i].key
  {
    seq(|cs|, i requires 0 <= i < |cs| => cs[i].key)
  }

  /**
   * The aligner expands into bammarkduplicates2, samindex, samsort,
   * bamtomapped, bamtounmapped, samtobam and the aligner, and only the
   * aligner gets the declared options.
   */
  lemma AlignerCallsOrder(key: string, samp: string, args: seq<string>, base: Kwargs, nk: Kwargs, d: LogDirs)
    ensures var cs := AlignerCalls(key, samp, args, base, nk, d);
      && CallKeys(cs) == ["bammarkduplicates2", "samindex", "samsort", "bamtomapped", "bamtounmapped", "samtobam", key]
      && (forall i :: 0 <= i < 6 ==> cs[i].args == []) && cs[6].args == args && cs[6].name == key
  {
  }

  /**
   * Of the aligner's seven calls only samsort and the aligner get the
   * updated kwargs, the others get base_kwargs, and the aligner writes
   * align_dir/<s>.sam.
   */
  lemma AlignerCallsKwargs(key: string, samp: string, args: seq<string>, base: Kwargs, nk: Kwargs, d: LogDirs)
    ensures var cs := AlignerCalls(key, samp, args, base, nk, d);
      && |cs| == 7
      && (forall i :: 0 <= i < 7 ==> (cs[i].fromNew <==> i == 2 || i == 6))
      && (forall i :: 0 <= i < 7 ==> cs[i].kw.stdout.Some? && cs[i].kw == Logged(if cs[i].fromNew then nk else base, cs[i].kw.stdout.value))
      && cs[6].kw == Logged(nk, PathJoin(d.alignDir, samp + ".sam"))
  {
  }

  /**
   * Every key but the aligner makes a single call with the updated kwargs
   * and stdout work_dir/log_dir/<s>_<key>.log, named by its stripped key.
   */
  lemma OtherKeyCall(f: Flow, key: string, samp: string, args: seq<string>, base: Kwargs, nk: Kwargs, d: LogDirs)
    requires key != Aligner(f)
    ensures var cs := KeyCalls(f, key, samp, args, base, nk, d);
      && |cs| == 1 && cs[0].fromNew && cs[0].args == args && cs[0].name == ProgNameClean(key)
      && cs[0].kw == Logged(nk, PathJoin3(d.runWorkDir, d.runLogDir, samp + "_" + key + ".log"))
  {
    ProgNameCleanFields(key);
  }

  /** A call with the updated kwargs writes their job_parms dictionary; every other call writes that of base_kwargs. */
  lemma KeyCallsRoute(f: Flow, key: string, samp: string, args: seq<string>, base: Kwargs, nk: Kwargs, d: LogDirs)
    ensures var cs := KeyCalls(f, key, samp, args, base, nk, d);
      forall i :: 0 <= i < |cs| ==> cs[i].kw.jobParms == if cs[i].fromNew then nk.jobParms else base.jobParms
  {
  }

  /** A word missing one of the letters of "round" does not contain it. */
  lemma MissingLetter(w: string, j: nat)
    requires j < 5 && "round"[j] !in w
    ensures !Contains(w, "round")
  {
    forall i | 0 <= i <= |w| - 5 ensures !OccursAt(w, "round", i) {
      assert w[i..i + 5][j] == w[i + j];
    }
    ContainsIff(w, "round");
  }

  /** The registry's keys, in declaration order. */
  const RegistryKeys: seq<string> := [
    "feature_counts", "gsnap", "fastqc", "qualimap_rnaseq", "qualimap_bamqc", "samtobam",
    "bamtomapped", "bamtounmapped", "samindex", "samsort", "bammarkduplicates2", "salmon",
    "htseq-count", "bwa_mem", "picard_CollectWgsMetrics", "picard_MarkDuplicates",
    "picard_BuildBamIndex", "picard_AddOrReplaceReadGroups", "gatk_RealignerTargetCreator",
    "gatk_IndelRealigner", "gatk_BaseRecalibrator", "gatk_PrintReads", "gatk_HaplotypeCaller",
    "gatk_AnalyzeCovariates"]

  /** No registry key contains "round". */
  lemma RegistryHasNoRound(k: string)
    requires k in Registry
    ensures !Contains(k, "round")
  {
    RegistryDomain(k);
    var i :| 0 <= i < |RegistryKeys| && RegistryKeys[i] == k;
    if i < 6 { NoRoundA(i); }
    else if i < 12 { NoRoundB(i); }
    else if i < 15 { NoRoundC(i); }
    else if i < 18 { NoRoundE(i); }
    else { NoRoundD(i); }
  }

  /** Every key of the registry is one of its listed keys. */
  lemma RegistryDomain(k: string)
    requires k in Registry
    ensures k in RegistryKeys
  {
  }

  /** The aligner's own lookup of a round key, stripped to the key its round was counted for. */
  function StrippedLookup(key: string): string {
    ProgNameClean(key)
  }

  /** The stripped lookup finds every repeated step whose base key is registered. */
  lemma StrippedLookupFinds(base: string, round: nat)
    requires base in Registry
    ensures StrippedLookup(Identity(base, round, true)) == base
  {
    RegistryHasNoRound(base);
    NoRoundFields(base);
    IdentityClean(base, round, true);
  }

  /** The '_'-fields of a word without "round" do not contain it either. */
  lemma NoRoundFields(w: string)
    requires !Contains(w, "round")
    ensures forall k :: 0 <= k < |Split(w, '_')| ==> !Contains(Split(w, '_')[k], "round")
  {
    ProgNameCleanFields(w);
  }

  lemma NoRoundA(i: nat)
    requires i < 6
    ensures !Contains(RegistryKeys[i], "round")
  {
    var k := RegistryKeys[i];
    if i == 0 { MissingLetter(k, 4); }
    else if i == 3 { MissingLetter(k, 1); }
    else { MissingLetter(k, 0); }
  }

  lemma NoRoundB(i: nat)
    requires 6 <= i < 12
    ensures !Contains(RegistryKeys[i], "round")
  {
    var k := RegistryKeys[i];
    if i == 9 { MissingLetter(k, 2); }
    else if i == 10 { MissingLetter(k, 1); }
    else { MissingLetter(k, 0); }
  }

  lemma NoRoundC(i: nat)
    requires 12 <= i < 15
    ensures !Contains(RegistryKeys[i], "round")
  {
    var k := RegistryKeys[i];
    if i == 14 { MissingLetter(k, 2); }
    else { MissingLetter(k, 0); }
  }

  lemma NoRoundE(i: nat)
    requires 15 <= i < 18
    ensures !Contains(RegistryKeys[i], "round")
  {
    var k := RegistryKeys[i];
    if i == 17 { MissingLetter(k, 3); }
    else { MissingLetter(k, 1); }
  }

  lemma NoRoundD(i: nat)
    requires 18 <= i < 24
    ensures !Contains(RegistryKeys[i], "round")
  {
    MissingLetter(RegistryKeys[i], 2);
  }

  /**
   * In RnaSeqFlow and GatkFlow a round key is looked up unstripped, and so
   * is never found; DnaSeqFlow looks up the key the round was counted for.
   */
  lemma RoundKeyLookup(f: Flow, base: string, round: nat, samp: string, args: seq<string>, bk: Kwargs, nk: Kwargs, d: LogDirs)
    requires round > 1 && base != Aligner(f)
    requires forall k :: 0 <= k < |Split(base, '_')| ==> !Contains(Split(base, '_')[k], "round")
    ensures var key := Identity(base, round, true);
      var cs := KeyCalls(f, key, samp, args, bk, nk, d);
      && |cs| == 1 && cs[0].name == base
      && (f != DnaSeq ==> cs[0].key == key && key !in Registry)
      && (f == DnaSeq ==> cs[0].key == base)
  {
    var key := Identity(base, round, true);
    IdentityClean(base, round, true);
    RoundInIdentity(base, round);
    if key == Aligner(f) {
      RegistryHasNoRound(key);
    }
    if key in Registry {
      RegistryHasNoRound(key);
    }
  }

  /** A round identity contains "round". */
  lemma RoundInIdentity(base: string, round: nat)
    requires round > 1
    ensures Contains(Identity(base, round, true), "round")
  {
    var tail := "_" + IntToStr(round);
    ContainsSelf("round");
    ContainsConcat(base + "_", "round", tail, "round");
    assert Identity(base, round, true) == base + "_" + "round" + tail;
  }

  // ---------------------------------------------------------------------
  // Building the records
  // ---------------------------------------------------------------------

  /** The registry lookup and the constructor's plan, or the KeyError or exception raised first. */
  function CallPlan(c: Call, samp: string, host: Host): Result<Plan> {
    if c.key !in Registry then Failure("KeyError: '" + c.key + "'")
    else ToolPlan(Registry[c.key], c.name, samp, c.args, c.kw, host)
  }

  /** The fields of the wrapper a call constructs, which do not depend on the job_parms contents. */
  function CallState(c: Call, samp: string, host: Host): Result<WState> {
    var p :- CallPlan(c, samp, host);
    Run(p, samp, host)
  }

  /** The entries of the job_parms dictionary the call writes, after it. */
  function CallParms(c: Call, samp: string, host: Host, e: map<string, Val>): map<string, Val> {
    match CallPlan(c, samp, host)
    case Failure(_) => e
    case Success(p) => UpdatedParms(p, e)
  }

  /** What constructing a call's wrapper yields: its fields or the exception, and the job_parms entries after it. */
  datatype Builder = Builder(state: Call -> Result<WState>, parms: (Call, map<string, Val>) -> map<string, Val>)

  /** The registered constructors, applied to one sample. */
  function Constructors(samp: string, host: Host): Builder {
    Builder(c => CallState(c, samp, host), (c, e) => CallParms(c, samp, host, e))
  }

  /**
   * The state `chain_commands` works on: `new_base_kwargs`, the entries of
   * the base and of the copied job_parms dictionary, the current sample's
   * `samp_progs`, `allTasks`, and the exception that stopped it.
   */
  datatype ChainState = ChainState(
    newKw: Kwargs,
    baseParms: map<string, Val>,
    newParms: map<string, Val>,
    current: seq<Encoded>,
    tasks: seq<Task>,
    error: Option<string>)

  /** One constructor call and `samp_progs.append(jsonpickle.encode(...))`. */
  function Step(c: Call, b: Builder, s: ChainState): ChainState {
    if s.error.Some? then s
    else
      var e := b.parms(c, if c.fromNew then s.newParms else s.baseParms);
      var s1 := if c.fromNew then s.(newParms := e) else s.(baseParms := e);
      match b.state(c)
      case Failure(err) => s1.(error := Some(err))
      case Success(w) => s1.(current := s1.current + [Encoded(w, e)])
  }

  /** The calls in order, stopping at the first exception. */
  function Steps(cs: seq<Call>, b: Builder, s: ChainState): ChainState
    decreases |cs|
  {
    if cs == [] then s else Steps(cs[1..], b, Step(cs[0], b, s))
  }

  /** Every call constructs its wrapper. */
  predicate AllBuild(cs: seq<Call>, b: Builder) {
    forall i :: 0 <= i < |cs| ==> b.state(cs[i]).Success?
  }

  /** `r` is `c` followed by one record per call, each holding the fields of that call's wrapper. */
  predicate RecordsOf(r: seq<Encoded>, c: seq<Encoded>, cs: seq<Call>, b: Builder) {
    && |r| == |c| + |cs| && r[..|c|] == c
    && forall i :: 0 <= i < |cs| ==> b.state(cs[i]).Success? && r[|c| + i].w == b.state(cs[i]).value
  }

  /**
   * The calls run without an exception exactly when every one of them
   * constructs its wrapper, and then each appends one record holding the
   * fields of its own wrapper; `new_base_kwargs` and `allTasks` are untouched.
   */
  lemma {:induction false} StepsRecords(cs: seq<Call>, b: Builder, s: ChainState)
    requires s.error.None?
    ensures var r := Steps(cs, b, s);
      && r.newKw == s.newKw && r.tasks == s.tasks
      && (r.error.None? <==> AllBuild(cs, b))
      && (r.error.None? ==> RecordsOf(r.current, s.current, cs, b))
    decreases |cs|
  {
    if cs == [] {
      assert Steps(cs, b, s).current[..|s.current|] == s.current;
    } else {
      var s1 := Step(cs[0], b, s);
      AllBuildConcat([cs[0]], cs[1..], b);
      assert [cs[0]] + cs[1..] == cs;
      if s1.error.Some? {
        StepsStopped(cs[1..], b, s1);
      } else {
        StepsRecords(cs[1..], b, s1);
        var r := Steps(cs, b, s);
        if r.error.None? {
          assert RecordsOf(s1.current, s.current, [cs[0]], b) by {
            assert s1.current[..|s.current|] == s.current;
          }
          RecordsConcat(r.current, s1.current, s.current, [cs[0]], cs[1..], b);
        }
      }
    }
  }

  /** A concatenation of calls builds all its wrappers exactly when both parts do. */
  lemma AllBuildConcat(a: seq<Call>, c: seq<Call>, b: Builder)
    ensures AllBuild(a + c, b) <==> AllBuild(a, b) && AllBuild(c, b)
  {
    if AllBuild(a + c, b) {
      forall i | 0 <= i < |a| ensures b.state(a[i]).Success? {
        assert (a + c)[i] == a[i];
      }
      forall i | 0 <= i < |c| ensures b.state(c[i]).Success? {
        assert (a + c)[|a| + i] == c[i];
      }
    }
  }

  /** Records for `a` then records for `c` are records for `a + c`. */
  lemma RecordsConcat(r: seq<Encoded>, m: seq<Encoded>, c0: seq<Encoded>, a: seq<Call>, c: seq<Call>, b: Builder)
    requires RecordsOf(m, c0, a, b) && RecordsOf(r, m, c, b)
    ensures RecordsOf(r, c0, a + c, b)
  {
    assert r[..|c0|] == r[..|m|][..|c0|];
    forall i | 0 <= i < |a + c| ensures b.state((a + c)[i]).Success? && r[|c0| + i].w == b.state((a + c)[i]).value {
      if i < |a| {
        assert (a + c)[i] == a[i];
        assert r[|c0| + i] == r[..|m|][|c0| + i];
      } else {
        assert (a + c)[i] == c[i - |a|];
        assert r[|m| + (i - |a|)] == r[|c0| + i];
      }
    }
  }

  /** Once an exception is raised the remaining calls change nothing. */
  lemma {:induction false} StepsStopped(cs: seq<Call>, b: Builder, s: ChainState)
    requires s.error.Some?
    ensures Steps(cs, b, s) == s
    decreases |cs|
  {
    if cs != [] {
      StepsStopped(cs[1..], b, s);
    }
  }

  // ---------------------------------------------------------------------
  // One sample, every sample
  // ---------------------------------------------------------------------

  /** What `chain_commands` reads: `progs` in order, `progs_job_parms`, `base_kwargs`, and the log directories. */
  datatype Env = Env(progs: seq<(string, seq<string>)>, jobParms: map<string, JobParams>, base: Kwargs, dirs: LogDirs)

  /** Every key of `progs` has job parameters. */
  predicate Declared(env: Env) {
    forall i :: 0 <= i < |env.progs| ==> env.progs[i].0 in env.jobParms
  }

  /** `new_base_kwargs` after the key's `update_job_parms` calls (two for the aligner outside GatkFlow). */
  function KeyKw(f: Flow, key: string, nk: Kwargs, jps: map<string, JobParams>): Kwargs
    requires key in jps
  {
    var nk1 := UpdateKw(nk, jps[key]);
    if key == Aligner(f) && f != GatkSeq then UpdateKw(nk1, jps[key]) else nk1
  }

  /** The body of `for key in self.progs.keys()` for one key. */
  function KeyStep(f: Flow, key: string, args: seq<string>, samp: string, env: Env, b: Builder, s: ChainState): ChainState {
    if s.error.Some? then s
    else if key !in env.jobParms then s.(error := Some("KeyError: '" + key + "'"))
    else
      var nk := KeyKw(f, key, s.newKw, env.jobParms);
      Steps(KeyCalls(f, key, samp, args, env.base, nk, env.dirs), b, s.(newKw := nk))
  }

  /** The keys of `progs` from the i-th on. */
  function KeysRun(f: Flow, ps: seq<(string, seq<string>)>, samp: string, env: Env, b: Builder, s: ChainState): ChainState
    decreases |ps|
  {
    if ps == [] then s else KeysRun(f, ps[1..], samp, env, b, KeyStep(f, ps[0].0, ps[0].1, samp, env, b, s))
  }

  /** The calls made for one sample, given the kwargs it starts with. */
  function SampleCalls(f: Flow, ps: seq<(string, seq<string>)>, samp: string, env: Env, nk: Kwargs): seq<Call>
    requires forall i :: 0 <= i < |ps| ==> ps[i].0 in env.jobParms
    decreases |ps|
  {
    if ps == [] then []
    else
      var nk1 := KeyKw(f, ps[0].0, nk, env.jobParms);
      KeyCalls(f, ps[0].0, samp, ps[0].1, env.base, nk1, env.dirs) + SampleCalls(f, ps[1..], samp, env, nk1)
  }

  /** `new_base_kwargs` after one sample's keys. */
  function KwAfter(f: Flow, ps: seq<(string, seq<string>)>, env: Env, nk: Kwargs): Kwargs
    requires forall i :: 0 <= i < |ps| ==> ps[i].0 in env.jobParms
    decreases |ps|
  {
    if ps == [] then nk else KwAfter(f, ps[1..], env, KeyKw(f, ps[0].0, nk, env.jobParms))
  }

  /** Once an exception is raised the remaining keys change nothing. */
  lemma {:induction false} KeysStopped(f: Flow, ps: seq<(string, seq<string>)>, samp: string, env: Env, b: Builder, s: ChainState)
    requires s.error.Some?
    ensures KeysRun(f, ps, samp, env, b, s) == s
    decreases |ps|
  {
    if ps != [] {
      KeysStopped(f, ps[1..], samp, env, b, s);
    }
  }

  /**
   * A sample's keys run without an exception exactly when every call they
   * make constructs its wrapper; then they append one record per call, in
   * order, and leave `new_base_kwargs` updated by every key.
   */
  lemma {:induction false} KeysRecords(f: Flow, ps: seq<(string, seq<string>)>, samp: string, env: Env, b: Builder, s: ChainState)
    requires s.error.None?
    requires forall i :: 0 <= i < |ps| ==> ps[i].0 in env.jobParms
    ensures var r := KeysRun(f, ps, samp, env, b, s);
      var cs := SampleCalls(f, ps, samp, env, s.newKw);
      && r.tasks == s.tasks
      && (r.error.None? <==> AllBuild(cs, b))
      && (r.error.None? ==> RecordsOf(r.current, s.current, cs, b) && r.newKw == KwAfter(f, ps, env, s.newKw))
    decreases |ps|
  {
    if ps == [] {
      assert s.current[..|s.current|] == s.current;
    } else {
      var nk := KeyKw(f, ps[0].0, s.newKw, env.jobParms);
      var kc := KeyCalls(f, ps[0].0, samp, ps[0].1, env.base, nk, env.dirs);
      var s0 := s.(newKw := nk);
      var s1 := KeyStep(f, ps[0].0, ps[0].1, samp, env, b, s);
      assert s1 == Steps(kc, b, s0);
      StepsRecords(kc, b, s0);
      var rest := SampleCalls(f, ps[1..], samp, env, nk);
      assert SampleCalls(f, ps, samp, env, s.newKw) == kc + rest;
      AllBuildConcat(kc, rest, b);
      if s1.error.Some? {
        KeysStopped(f, ps[1..], samp, env, b, s1);
      } else {
        KeysRecords(f, ps[1..], samp, env, b, s1);
        var r := KeysRun(f, ps, samp, env, b, s);
        if r.error.None? {
          RecordsConcat(r.current, s1.current, s.current, kc, rest, b);
        }
      }
    }
  }

  /**
   * One pass of `for samp in self.sample_fastq_work`: the keys on a fresh
   * `samp_progs`, then `allTasks.append(TaskSequence(samp_progs))`.
   */
  function SampleRun(f: Flow, samp: string, env: Env, b: Builder, s: ChainState): ChainState {
    if s.error.Some? then s
    else
      var r := KeysRun(f, env.progs, samp, env, b, s.(current := []));
      if r.error.Some? then r else r.(tasks := r.tasks + [TaskSequence(r.current)])
  }

  /** The registered constructors, for each sample. */
  function Builders(host: Host): string -> Builder {
    samp => Constructors(samp, host)
  }

  /** `chain_commands`: the samples in order, each with its constructors, stopping at the first exception. */
  function ChainRun(f: Flow, samples: seq<string>, env: Env, bs: string -> Builder, s: ChainState): ChainState
    decreases |samples|
  {
    if samples == [] then s else ChainRun(f, samples[1..], env, bs, SampleRun(f, samples[0], env, bs(samples[0]), s))
  }

  /** The keys from the i-th on run key `i`, then the keys from `i + 1`. */
  lemma KeysRunNext(f: Flow, ps: seq<(string, seq<string>)>, i: nat, samp: string, env: Env, b: Builder, s: ChainState)
    requires i < |ps|
    ensures KeysRun(f, ps[i..], samp, env, b, s) == KeysRun(f, ps[i + 1..], samp, env, b, KeyStep(f, ps[i].0, ps[i].1, samp, env, b, s))
  {
    assert ps[i..][1..] == ps[i + 1..];
  }

  /** The chain from sample `i` on runs sample `i`, then the chain from `i + 1`. */
  lemma ChainRunNext(f: Flow, samples: seq<string>, i: nat, env: Env, bs: string -> Builder, s: ChainState)
    requires i < |samples|
    ensures ChainRun(f, samples[i..], env, bs, s) == ChainRun(f, samples[i + 1..], env, bs, SampleRun(f, samples[i], env, bs(samples[i]), s))
  {
    assert samples[i..][1..] == samples[i + 1..];
  }

  // ---------------------------------------------------------------------
  // Builders that construct alike
  // ---------------------------------------------------------------------

  /** Builders that construct alike run the same calls alike. */
  lemma {:induction false} StepsAgree(cs: seq<Call>, b1: Builder, b2: Builder, s: ChainState)
    requires forall c :: b1.state(c) == b2.state(c)
    requires forall c, e :: b1.parms(c, e) == b2.parms(c, e)
    ensures Steps(cs, b1, s) == Steps(cs, b2, s)
    decreases |cs|
  {
    if cs != [] {
      assert Step(cs[0], b1, s) == Step(cs[0], b2, s);
      StepsAgree(cs[1..], b1, b2, Step(cs[0], b1, s));
    }
  }

  lemma {:induction false} KeysRunAgree(f: Flow, ps: seq<(string, seq<string>)>, samp: string, env: Env, b1: Builder, b2: Builder, s: ChainState)
    requires forall c :: b1.state(c) == b2.state(c)
    requires forall c, e :: b1.parms(c, e) == b2.parms(c, e)
    ensures KeysRun(f, ps, samp, env, b1, s) == KeysRun(f, ps, samp, env, b2, s)
    decreases |ps|
  {
    if ps != [] {
      var s1 := KeyStep(f, ps[0].0, ps[0].1, samp, env, b1, s);
      if s.error.None? && ps[0].0 in env.jobParms {
        var nk := KeyKw(f, ps[0].0, s.newKw, env.jobParms);
        StepsAgree(KeyCalls(f, ps[0].0, samp, ps[0].1, env.base, nk, env.dirs), b1, b2, s.(newKw := nk));
      }
      assert s1 == KeyStep(f, ps[0].0, ps[0].1, samp, env, b2, s);
      KeysRunAgree(f, ps[1..], samp, env, b1, b2, s1);
    }
  }

  /**
   * `chain_commands` gives the same state with any builders that construct
   * every call as the registered constructors do for each sample. The
   * facts are keyed on `CallState` and `CallParms`, so a proof only
   * considers them where the registry's behaviour is mentioned.
   */
  lemma {:induction false} ChainRunRealised(f: Flow, samples: seq<string>, env: Env, bs: string -> Builder, host: Host, s: ChainState)
    requires forall samp, c {:trigger CallState(c, samp, host)} :: bs(samp).state(c) == CallState(c, samp, host)
    requires forall samp, c, e {:trigger CallParms(c, samp, host, e)} :: bs(samp).parms(c, e) == CallParms(c, samp, host, e)
    ensures ChainRun(f, samples, env, bs, s) == ChainRun(f, samples, env, Builders(host), s)
    decreases |samples|
  {
    if samples != [] {
      var samp := samples[0];
      var b1 := bs(samp);
      var b2 := Builders(host)(samp);
      forall c ensures b1.state(c) == b2.state(c) {
        assert b2.state(c) == CallState(c, samp, host);
      }
      forall c, e ensures b1.parms(c, e) == b2.parms(c, e) {
        assert b2.parms(c, e) == CallParms(c, samp, host, e);
      }
      if s.error.None? {
        KeysRunAgree(f, env.progs, samp, env, b1, b2, s.(current := []));
      }
      assert SampleRun(f, samp, env, b1, s) == SampleRun(f, samp, env, b2, s);
      ChainRunRealised(f, samples[1..], env, bs, host, SampleRun(f, samp, env, b1, s));
    }
  }

  // ---------------------------------------------------------------------
  // What the chains hold
  // ---------------------------------------------------------------------

  /** The number of `progs` entries that are the aligner. */
  function AlignerCount(f: Flow, ps: seq<(string, seq<string>)>): nat
    decreases |ps|
  {
    if ps == [] then 0 else (if ps[0].0 == Aligner(f) then 1 else 0) + AlignerCount(f, ps[1..])
  }

  /** A sample makes one call per key plus six more for each aligner key. */
  lemma {:induction false} SampleCallsCount(f: Flow, ps: seq<(string, seq<string>)>, samp: string, env: Env, nk: Kwargs)
    requires forall i :: 0 <= i < |ps| ==> ps[i].0 in env.jobParms
    ensures |SampleCalls(f, ps, samp, env, nk)| == |ps| + 6 * AlignerCount(f, ps)
    decreases |ps|
  {
    if ps != [] {
      SampleCallsCount(f, ps[1..], samp, env, KeyKw(f, ps[0].0, nk, env.jobParms));
    }
  }

  /** `k` is `nk` with at most stdout and the custom settings changed, and marked custom if they changed type. */
  predicate Restyled(k: Kwargs, nk: Kwargs) {
    && k.(stdout := nk.stdout, jobParmsType := nk.jobParmsType, addJobParms := nk.addJobParms) == nk
    && (k.jobParmsType == nk.jobParmsType || k.jobParmsType == Some("custom"))
  }

  /** `update_job_parms` calls only ever restyle the kwargs. */
  lemma KeyKwRestyled(f: Flow, key: string, nk: Kwargs, jps: map<string, JobParams>)
    requires key in jps
    ensures Restyled(KeyKw(f, key, nk, jps), nk)
  {
  }

  /**
   * Every call a sample makes gets either base_kwargs, with only stdout
   * set, or the sample's starting `new_base_kwargs` with at most stdout and
   * the custom settings changed: records built from base_kwargs are never custom.
   */
  lemma {:induction false} SampleCallsKwargs(f: Flow, ps: seq<(string, seq<string>)>, samp: string, env: Env, nk: Kwargs)
    requires forall i :: 0 <= i < |ps| ==> ps[i].0 in env.jobParms
    ensures forall c :: c in SampleCalls(f, ps, samp, env, nk) ==>
      && c.kw.stdout.Some?
      && (!c.fromNew ==> c.kw == Logged(env.base, c.kw.stdout.value))
      && (c.fromNew ==> Restyled(c.kw, nk))
    decreases |ps|
  {
    if ps != [] {
      var nk1 := KeyKw(f, ps[0].0, nk, env.jobParms);
      KeyKwRestyled(f, ps[0].0, nk, env.jobParms);
      SampleCallsKwargs(f, ps[1..], samp, env, nk1);
      var kc := KeyCalls(f, ps[0].0, samp, ps[0].1, env.base, nk1, env.dirs);
      if ps[0].0 == Aligner(f) {
        AlignerCallsKwargs(ps[0].0, samp, ps[0].1, env.base, nk1, env.dirs);
      } else {
        OtherKeyCall(f, ps[0].0, samp, ps[0].1, env.base, nk1, env.dirs);
      }
      forall c | c in kc
        ensures c.kw.stdout.Some? && (!c.fromNew ==> c.kw == Logged(env.base, c.kw.stdout.value)) && (c.fromNew ==> Restyled(c.kw, nk))
      {
        var i :| 0 <= i < |kc| && kc[i] == c;
      }
    }
  }

  /** The kwargs after a sample's keys are the kwargs after `update_job_parms` for each key in turn. */
  lemma {:induction false} KwAfterUpdates(f: Flow, ps: seq<(string, seq<string>)>, env: Env, nk: Kwargs)
    requires forall i :: 0 <= i < |ps| ==> ps[i].0 in env.jobParms
    ensures forall k :: k in Keys(ps) ==> k in env.jobParms
    ensures KwAfter(f, ps, env, nk) == UpdateAll(nk, Keys(ps), env.jobParms)
    decreases |ps|
  {
    assert forall k :: k in Keys(ps) ==> k in env.jobParms by {
      forall k | k in Keys(ps) ensures k in env.jobParms {
        var i :| 0 <= i < |Keys(ps)| && Keys(ps)[i] == k;
      }
    }
    if ps != [] {
      var k0 := ps[0].0;
      var nk1 := KeyKw(f, k0, nk, env.jobParms);
      KwAfterUpdates(f, ps[1..], env, nk1);
      UpdateKwIdempotent(nk, env.jobParms[k0]);
      assert [k0][..0] == [];
      assert nk1 == UpdateAll(nk, [k0], env.jobParms);
      assert Keys(ps) == [k0] + Keys(ps[1..]);
      UpdateAllAppend(nk, [k0], Keys(ps[1..]), env.jobParms);
    }
  }

  /**
   * One sample's pass: it raises exactly when one of its calls fails to
   * construct; otherwise it appends one TaskSequence whose records are the
   * calls' wrappers in order, |progs| plus six per aligner, and leaves
   * `new_base_kwargs` updated by every key of `progs`.
   */
  lemma SampleRunFacts(f: Flow, samp: string, env: Env, b: Builder, s: ChainState)
    requires s.error.None? && Declared(env)
    ensures var r := SampleRun(f, samp, env, b, s);
      var cs := SampleCalls(f, env.progs, samp, env, s.newKw);
      && (r.error.None? <==> AllBuild(cs, b))
      && (r.error.None? ==>
        && |r.tasks| == |s.tasks| + 1 && r.tasks[..|s.tasks|] == s.tasks
        && r.tasks[|s.tasks|] == TaskSequence(r.current)
        && RecordsOf(r.current, [], cs, b)
        && |r.current| == |env.progs| + 6 * AlignerCount(f, env.progs)
        && r.newKw == UpdateAll(s.newKw, Keys(env.progs), env.jobParms))
  {
    var s0 := s.(current := []);
    KeysRecords(f, env.progs, samp, env, b, s0);
    SampleCallsCount(f, env.progs, samp, env, s.newKw);
    KwAfterUpdates(f, env.progs, env, s.newKw);
    var r := SampleRun(f, samp, env, b, s);
    if r.error.None? {
      assert r.tasks[..|s.tasks|] == s.tasks;
    }
  }

  /**
   * Every sample appends exactly one TaskSequence to `allTasks`, of |progs|
   * records plus six per aligner key, when no call raises.
   */
  lemma {:induction false} ChainRunTasks(f: Flow, samples: seq<string>, env: Env, bs: string -> Builder, s: ChainState)
    requires s.error.None? && Declared(env)
    ensures var r := ChainRun(f, samples, env, bs, s);
      r.error.None? ==>
        && |r.tasks| == |s.tasks| + |samples| && r.tasks[..|s.tasks|] == s.tasks
        && forall i :: |s.tasks| <= i < |r.tasks| ==>
          r.tasks[i].TaskSequence? && |r.tasks[i].progParms| == |env.progs| + 6 * AlignerCount(f, env.progs)
    decreases |samples|
  {
    if samples != [] {
      var s1 := SampleRun(f, samples[0], env, bs(samples[0]), s);
      SampleRunFacts(f, samples[0], env, bs(samples[0]), s);
      if s1.error.Some? {
        ChainStopped(f, samples[1..], env, bs, s1);
      } else {
        ChainRunTasks(f, samples[1..], env, bs, s1);
        var r := ChainRun(f, samples, env, bs, s);
        if r.error.None? {
          assert r.tasks[..|s.tasks|] == r.tasks[..|s1.tasks|][..|s.tasks|];
          assert r.tasks[|s.tasks|] == r.tasks[..|s1.tasks|][|s.tasks|];
        }
      }
    }
  }

  /** Once an exception is raised the remaining samples change nothing. */
  lemma {:induction false} ChainStopped(f: Flow, samples: seq<string>, env: Env, bs: string -> Builder, s: ChainState)
    requires s.error.Some?
    ensures ChainRun(f, samples, env, bs, s) == s
    decreases |samples|
  {
    if samples != [] {
      ChainStopped(f, samples[1..], env, bs, s);
    }
  }

  /** The call of a round identity in RnaSeqFlow or GatkFlow raises a KeyError. */
  lemma RoundCallsFail(f: Flow, base: string, round: nat, samp: string, args: seq<string>, bk: Kwargs, nk: Kwargs,
                       d: LogDirs, host: Host)
    requires f != DnaSeq && round > 1 && base != Aligner(f) && !Contains(base, "round")
    ensures !AllBuild(KeyCalls(f, Identity(base, round, true), samp, args, bk, nk, d), Constructors(samp, host))
  {
    NoRoundFields(base);
    RoundKeyLookup(f, base, round, samp, args, bk, nk, d);
    var c := KeyCalls(f, Identity(base, round, true), samp, args, bk, nk, d)[0];
    UnregisteredFails(c, samp, host);
  }

  /** A call whose key is not registered raises a KeyError. */
  lemma UnregisteredFails(c: Call, samp: string, host: Host)
    requires c.key !in Registry
    ensures Constructors(samp, host).state(c).Failure?
  {
  }

  /** One entry whose calls cannot all construct, whatever `new_base_kwargs` hold, makes the whole sample raise. */
  lemma {:induction false} BrokenEntryBreaksSample(f: Flow, ps: seq<(string, seq<string>)>, samp: string, env: Env,
                                                   nk: Kwargs, b: Builder, i: nat)
    requires forall j :: 0 <= j < |ps| ==> ps[j].0 in env.jobParms
    requires i < |ps| && forall k :: !AllBuild(KeyCalls(f, ps[i].0, samp, ps[i].1, env.base, k, env.dirs), b)
    ensures !AllBuild(SampleCalls(f, ps, samp, env, nk), b)
    decreases i
  {
    var nk1 := KeyKw(f, ps[0].0, nk, env.jobParms);
    var kc := KeyCalls(f, ps[0].0, samp, ps[0].1, env.base, nk1, env.dirs);
    AllBuildConcat(kc, SampleCalls(f, ps[1..], samp, env, nk1), b);
    if i > 0 {
      BrokenEntryBreaksSample(f, ps[1..], samp, env, nk1, b, i - 1);
    }
  }

  /**
   * In RnaSeqFlow and GatkFlow a `progs` entry that is a round identity
   * makes a call no registry entry answers, so every sample raises a
   * KeyError before its TaskSequence is appended.
   */
  lemma RoundKeyBreaksSample(f: Flow, samp: string, env: Env, host: Host, s: ChainState, i: nat, base: string, round: nat)
    requires s.error.None? && Declared(env)
    requires f != DnaSeq && i < |env.progs| && env.progs[i].0 == Identity(base, round, true)
    requires round > 1 && base != Aligner(f) && !Contains(base, "round")
    ensures SampleRun(f, samp, env, Constructors(samp, host), s).error.Some?
  {
    var e := env.progs[i];
    forall nk ensures !AllBuild(KeyCalls(f, e.0, samp, e.1, env.base, nk, env.dirs), Constructors(samp, host)) {
      RoundCallsFail(f, base, round, samp, e.1, env.base, nk, env.dirs, host);
    }
    BrokenEntryBreaksSample(f, env.progs, samp, env, s.newKw, Constructors(samp, host), i);
    SampleRunFacts(f, samp, env, Constructors(samp, host), s);
  }
}
