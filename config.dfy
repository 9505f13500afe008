// The configuration side of BaseWorkflow in
// bioflows/definedworkflows/rnaseq/rnaseqworkflow.py: the directories of a
// run, the saga job parameters, the generic keyword arguments, the remote
// prefix of the directory check, the command files, the sample manifest,
// and the names of the work fastq files.
module Config {
  import opened Wrappers
  import opened PyStr
  import opened Params
  import opened Dicts

  /** `run_parms`: the parsed YAML values of the run section. */
  type Settings = map<string, Val>

  /** `run_parms[key]`: a missing key raises KeyError. */
  function Setting(run: Settings, key: string): (r: Result<Val>)
    ensures r.Success? <==> key in run
    ensures r.Success? ==> r.value == run[key]
  {
    if key in run then Success(run[key]) else Failure("KeyError: '" + key + "'")
  }

  /** A value used as a path: anything but a text fails inside os.path.join. */
  function AsText(v: Val): (r: Result<string>)
    ensures r.Success? <==> v.Text?
  {
    if v.Text? then Success(v.s) else Failure("AttributeError: not a string")
  }

  /**
   * `run_parms.get(key, default)` for a setting that ends up as text in the
   * keyword arguments; a YAML null gives None.
   */
  function OptionalText(run: Settings, key: string, default: Option<string>): (r: Result<Option<string>>)
    ensures key !in run ==> r == Success(default)
    ensures key in run && run[key].Text? ==> r == Success(Some(run[key].s))
  {
    if key !in run then Success(default)
    else match run[key]
      case Text(s) => Success(Some(s))
      case Null => Success(None)
      case _ => Failure("TypeError: '" + key + "' is not a string")
  }

  // ---------------------------------------------------------------------
  // set_paths

  /** The directories `set_paths` computes. */
  datatype Paths = Paths(workDir: string, logDir: string, checkpointDir: string, sraDir: string,
                         fastqDir: string, alignDir: string, qcDir: string)

  /** `set_paths`: work_dir and log_dir from the run section, the others fixed names under work_dir. */
  function SetPaths(run: Settings): Result<Paths> {
    var wv :- Setting(run, "work_dir");
    var lv :- Setting(run, "log_dir");
    var w :- AsText(wv);
    var l :- AsText(lv);
    Success(Paths(w, PathJoin(w, l), PathJoin(w, "checkpoints"), PathJoin(w, "sra"),
                  PathJoin(w, "fastq"), PathJoin(w, "alignments"), PathJoin(w, "qc")))
  }

  /** Joining two relative names of different lengths onto one directory gives two different paths. */
  lemma JoinDistinct(w: string, a: string, b: string)
    requires a != [] && b != [] && a[0] != '/' && b[0] != '/' && |a| != |b|
    ensures PathJoin(w, a) != PathJoin(w, b)
  {
    assert !StartsWith(a, "/") && !StartsWith(b, "/");
  }

  /**
   * The paths exist exactly when work_dir and log_dir are texts; then
   * work_dir is the configured one and the log directory ends with the
   * configured log_dir.
   */
  lemma SetPathsFacts(run: Settings)
    ensures SetPaths(run).Success? <==> "work_dir" in run && "log_dir" in run && run["work_dir"].Text? && run["log_dir"].Text?
    ensures SetPaths(run).Success? ==>
      var p := SetPaths(run).value;
      run["work_dir"] == Text(p.workDir) && EndsWith(p.logDir, run["log_dir"].s)
  {
    if SetPaths(run).Success? {
      PathJoinFacts(SetPaths(run).value.workDir, run["log_dir"].s);
    }
  }

  /** The five fixed directories of a run are five different paths. */
  lemma FixedDirsDistinct(run: Settings)
    requires SetPaths(run).Success?
    ensures var p := SetPaths(run).value;
      |{p.checkpointDir, p.sraDir, p.fastqDir, p.alignDir, p.qcDir}| == 5
  {
    var p := SetPaths(run).value;
    var w := p.workDir;
    JoinDistinct(w, "checkpoints", "sra");
    JoinDistinct(w, "checkpoints", "fastq");
    JoinDistinct(w, "checkpoints", "alignments");
    JoinDistinct(w, "checkpoints", "qc");
    JoinDistinct(w, "sra", "fastq");
    JoinDistinct(w, "sra", "alignments");
    JoinDistinct(w, "sra", "qc");
    JoinDistinct(w, "fastq", "alignments");
    JoinDistinct(w, "fastq", "qc");
    JoinDistinct(w, "alignments", "qc");
  }

  // ---------------------------------------------------------------------
  // job_params and set_saga_parms

  /** The `job_params` dictionary `__init__` starts from: the run's work_dir, 80 minutes, 3000 MB. */
  function InitialJobParams(run: Settings): (r: Result<map<string, Val>>)
    ensures r.Success? <==> "work_dir" in run
    ensures r.Success? ==> r.value.Keys == {"work_dir", "time", "mem"} && r.value["work_dir"] == run["work_dir"]
  {
    var w :- Setting(run, "work_dir");
    Success(map["work_dir" := w, "time" := Num(80), "mem" := Num(3000)])
  }

  /**
   * `set_saga_parms`: saga_host (default "localhost"), ssh_user when the
   * run section has a saga_user, and saga_scheduler (default "fork").
   */
  function SagaParms(run: Settings, jp: map<string, Val>): Result<map<string, Val>> {
    var jp1 := jp["saga_host" := if "saga_host" in run then run["saga_host"] else Text("localhost")];
    var jp2 :- if "saga_user" !in run then Success(jp1)
               else if "ssh_user" in run then Success(jp1["ssh_user" := run["ssh_user"]])
               else Failure("KeyError: 'ssh_user'");
    Success(jp2["saga_scheduler" := if "saga_scheduler" in run then run["saga_scheduler"] else Text("fork")])
  }

  /**
   * The saga parameters: it raises exactly when saga_user is given without
   * ssh_user; the host and scheduler are the configured ones or the
   * defaults; ssh_user is copied only when saga_user is present; every
   * other entry is kept.
   */
  lemma SagaParmsFacts(run: Settings, jp: map<string, Val>)
    ensures SagaParms(run, jp).Failure? <==> "saga_user" in run && "ssh_user" !in run
    ensures SagaParms(run, jp).Success? ==>
      var r := SagaParms(run, jp).value;
      && r["saga_host"] == (if "saga_host" in run then run["saga_host"] else Text("localhost"))
      && r["saga_scheduler"] == (if "saga_scheduler" in run then run["saga_scheduler"] else Text("fork"))
      && ("saga_user" in run ==> r["ssh_user"] == run["ssh_user"])
      && ("saga_user" !in run ==> ("ssh_user" in r <==> "ssh_user" in jp))
      && r.Keys == jp.Keys + {"saga_host", "saga_scheduler"} + (if "saga_user" in run then {"ssh_user"} else {})
      && forall k :: k in jp && k != "saga_host" && k != "saga_scheduler" && k != "ssh_user" ==> r[k] == jp[k]
  {
  }

  /**
   * The saga parameters asserted at
   * bioflows/test_rnaseq_workflow/test_rnaSeqFlowBase.py: a run section
   * with host, ssh_user and scheduler but no saga_user gives host and
   * scheduler, and no ssh_user.
   */
  lemma SagaParmsExample(run: Settings, host: string, user: string, sched: string)
    requires "saga_host" in run && run["saga_host"] == Text(host)
    requires "ssh_user" in run && run["ssh_user"] == Text(user)
    requires "saga_scheduler" in run && run["saga_scheduler"] == Text(sched)
    requires "saga_user" !in run && "work_dir" in run
    ensures var r := SagaParms(run, InitialJobParams(run).value);
      r.Success? && r.value == map["work_dir" := run["work_dir"], "time" := Num(80), "mem" := Num(3000),
                                   "saga_host" := Text(host), "saga_scheduler" := Text(sched)]
  {
  }

  // ---------------------------------------------------------------------
  // The conda command and set_base_kwargs

  /** The conda command `__init__` puts into the run section when it has none. */
  const ClusterConda := "source activate /gpfs/data/cbc/cbc_conda_v1/envs/cbc_conda/bin"

  /** `set_base_kwargs`' own fallback, which the one above always pre-empts. */
  const LocalConda := "source activate cbc_conda"

  /** `__init__`'s `run_parms['conda_command'] = ...` when the key is missing. */
  function WithConda(run: Settings): (r: Settings)
    ensures "conda_command" in r
    ensures forall k :: k != "conda_command" ==> (k in r <==> k in run) && (k in run ==> r[k] == run[k])
  {
    if "conda_command" in run then run else run["conda_command" := Text(ClusterConda)]
  }

  /**
   * `set_base_kwargs`: the paths, the shared job_parms dictionary marked
   * 'default', and the run settings with their defaults; `cwd` is the
   * process's working directory.
   */
  function BaseKwargs(p: Paths, run: Settings, jobParms: JobParms?, cwd: string): Result<Kwargs> {
    var conda :- OptionalText(run, "conda_command", Some(LocalConda));
    var luigi :- OptionalText(run, "luigi_local_path", Some(cwd));
    var gtf :- OptionalText(run, "gtf_file", None);
    var fasta :- OptionalText(run, "reference_fasta_path", None);
    var genome :- OptionalText(run, "genome_file", None);
    Success(NoKwargs().(
      cwd := Some(p.workDir), alignDir := Some(p.alignDir), qcDir := Some(p.qcDir), workDir := Some(p.workDir),
      logDir := Some(p.logDir), checkpointDir := Some(p.checkpointDir), sraDir := Some(p.sraDir),
      fastqDir := Some(p.fastqDir), condaCommand := conda, jobParms := jobParms,
      jobParmsType := Some("default"), addJobParms := None,
      pairedEnd := Some(if "paired_end" in run then run["paired_end"] else Flag(false)),
      localTargets := Some(if "local_targets" in run then run["local_targets"] else Flag(false)),
      luigiLocalPath := luigi, gtfFile := gtf, refFastaPath := fasta, genomeFile := genome))
  }

  /**
   * The generic kwargs share the given job_parms dictionary, are never
   * custom, hold every directory of the run, and, once `__init__` has put a
   * conda command into the run section, carry that command: the
   * "source activate cbc_conda" fallback can never be taken.
   */
  lemma BaseKwargsFacts(p: Paths, run: Settings, jobParms: JobParms?, cwd: string)
    ensures var r := BaseKwargs(p, WithConda(run), jobParms, cwd);
      r.Success? ==>
        && r.value.jobParms == jobParms && !IsCustom(r.value) && r.value.addJobParms.None?
        && r.value.workDir == Some(p.workDir) && r.value.cwd == Some(p.workDir) && r.value.logDir == Some(p.logDir)
        && r.value.alignDir == Some(p.alignDir) && r.value.fastqDir == Some(p.fastqDir)
        && r.value.expressionDir.None? && r.value.gatkDir.None?
        && ("conda_command" !in run ==> r.value.condaCommand == Some(ClusterConda))
        && ("conda_command" in run && run["conda_command"].Text? ==> r.value.condaCommand == Some(run["conda_command"].s))
  {
    var wr := WithConda(run);
    if "conda_command" !in run {
      assert wr["conda_command"] == Text(ClusterConda);
    }
  }

  // ---------------------------------------------------------------------
  // test_paths

  /** `paths_to_test`: the base workflow's seven directories. */
  function PathsToTest(p: Paths): (r: seq<string>)
    ensures |r| == 7
  {
    [p.workDir, p.logDir, p.checkpointDir, p.sraDir, p.fastqDir, p.alignDir, p.qcDir]
  }

  /**
   * `test_paths` up to the directory checks: whether they are remote, and
   * the paths checked, each prefixed with "sftp://" + host + "/" for a
   * host other than "localhost".
   */
  function TestPaths(run: Settings, paths: seq<string>): Result<(bool, seq<string>)> {
    var h :- Setting(run, "saga_host");
    if h == Text("localhost") then Success((false, paths))
    else
      var host :- if h.Text? then Success(h.s) else Failure("TypeError: cannot concatenate 'str' and a non-string");
      Success((true, seq(|paths|, i requires 0 <= i < |paths| => "sftp://" + host + "/" + paths[i])))
  }

  /**
   * Without a saga_host the check raises; on "localhost" it checks the
   * paths themselves; on any other host it checks one remote URL per path,
   * in order, each ending with its path.
   */
  lemma TestPathsFacts(run: Settings, paths: seq<string>)
    ensures "saga_host" !in run ==> TestPaths(run, paths).Failure?
    ensures "saga_host" in run && run["saga_host"] == Text("localhost") ==> TestPaths(run, paths) == Success((false, paths))
    ensures "saga_host" in run && run["saga_host"].Text? && run["saga_host"] != Text("localhost") ==>
      var r := TestPaths(run, paths);
      && r.Success? && r.value.0 && |r.value.1| == |paths|
      && forall i :: 0 <= i < |paths| ==>
        StartsWith(r.value.1[i], "sftp://" + run["saga_host"].s + "/") && EndsWith(r.value.1[i], paths[i])
                                                                           && |r.value.1[i]| == 8 + |run["saga_host"].s| + |paths[i]|
  {
    if "saga_host" in run && run["saga_host"].Text? && run["saga_host"] != Text("localhost") {
      var h := run["saga_host"].s;
      var r := TestPaths(run, paths).value.1;
      forall i | 0 <= i < |paths|
        ensures StartsWith(r[i], "sftp://" + h + "/") && EndsWith(r[i], paths[i])
      {
        var pre := "sftp://" + h + "/";
        assert r[i] == pre + paths[i];
        assert r[i][..|pre|] == pre;
        assert r[i][|r[i]| - |paths[i]|..] == paths[i];
      }
    }
  }

  // ---------------------------------------------------------------------
  // write_cmds

  /** A sample's commands: a list, or a single text. */
  datatype Cmds = CmdList(cmds: seq<string>) | CmdText(cmd: string)

  /** One line of the commands file. */
  function CmdsLine(samp: string, c: Cmds): string {
    match c
    case CmdList(cs) => samp + ":" + Join("; ", cs) + "\n"
    case CmdText(t) => samp + ":" + t + "\n"
  }

  /** The text written: one line per sample, in the dictionary's order. */
  function CmdsFile(cmdsSet: seq<(string, Cmds)>): string
    decreases |cmdsSet|
  {
    if cmdsSet == [] then ""
    else CmdsFile(cmdsSet[..|cmdsSet| - 1]) + CmdsLine(cmdsSet[|cmdsSet| - 1].0, cmdsSet[|cmdsSet| - 1].1)
  }

  /** The line's text without its newline. */
  function CmdsBody(samp: string, c: Cmds): string {
    match c
    case CmdList(cs) => samp + ":" + Join("; ", cs)
    case CmdText(t) => samp + ":" + t
  }

  /** The line bodies of a commands file, in order. */
  function CmdsBodies(cmdsSet: seq<(string, Cmds)>): (r: seq<string>)
    ensures |r| == |cmdsSet|
    ensures forall i :: 0 <= i < |cmdsSet| ==> r[i] == CmdsBody(cmdsSet[i].0, cmdsSet[i].1)
  {
    seq(|cmdsSet|, i requires 0 <= i < |cmdsSet| => CmdsBody(cmdsSet[i].0, cmdsSet[i].1))
  }

  /** A one-command list writes the same line as that command given as text. */
  lemma SingleCommandLine(samp: string, c: string)
    ensures CmdsLine(samp, CmdList([c])) == CmdsLine(samp, CmdText(c))
  {
  }

  /** Sample names and commands without a newline. */
  predicate NoNewline(cmdsSet: seq<(string, Cmds)>) {
    forall i :: 0 <= i < |cmdsSet| ==> '\n' !in CmdsBody(cmdsSet[i].0, cmdsSet[i].1)
  }

  /** Adding one more terminated part to a join of terminated parts. */
  lemma JoinTerminated(sep: string, parts: seq<string>, e: string)
    ensures Join(sep, parts + [""]) + e + sep == Join(sep, parts + [e] + [""])
  {
    if parts == [] {
      assert parts + [e] + [""] == [e, ""];
      assert [e, ""][1..] == [""];
    } else {
      JoinAppend(sep, parts, "");
      JoinAppend(sep, parts, e);
      JoinAppend(sep, parts + [e], "");
    }
  }

  /** The file is the bodies joined by newlines, with a final newline. */
  lemma {:induction false} CmdsFileJoin(cmdsSet: seq<(string, Cmds)>)
    ensures CmdsFile(cmdsSet) == Join("\n", CmdsBodies(cmdsSet) + [""])
    decreases |cmdsSet|
  {
    if cmdsSet != [] {
      var n := |cmdsSet| - 1;
      var pre := cmdsSet[..n];
      CmdsFileJoin(pre);
      var b := CmdsBodies(cmdsSet);
      assert CmdsBodies(pre) == b[..n];
      var e := b[n];
      assert CmdsLine(cmdsSet[n].0, cmdsSet[n].1) == e + "\n";
      JoinTerminated("\n", b[..n], e);
      assert b[..n] + [e] == b;
    }
  }

  /**
   * Reading the file back: split at newlines, it gives one line per
   * sample, in order, followed by the empty text after the last newline,
   * when no sample name or command holds a newline.
   */
  lemma CmdsFileLines(cmdsSet: seq<(string, Cmds)>)
    requires NoNewline(cmdsSet)
    ensures Split(CmdsFile(cmdsSet), '\n') == CmdsBodies(cmdsSet) + [""]
  {
    CmdsFileJoin(cmdsSet);
    var parts := CmdsBodies(cmdsSet) + [""];
    forall k | 0 <= k < |parts| ensures '\n' !in parts[k] {
      if k < |cmdsSet| {
        assert parts[k] == CmdsBody(cmdsSet[k].0, cmdsSet[k].1);
      }
    }
    assert "\n" == ['\n'];
    SplitJoin(parts, '\n');
  }

  // ---------------------------------------------------------------------
  // parse_sample_info_from_file

  /** `line.strip('\n').split(',')` */
  function LineFields(line: string): (t: seq<string>)
    ensures |t| >= 1
  {
    Split(Strip(line, {'\n'}), ',')
  }

  /** The fields of every line of the manifest. */
  function Rows(lines: seq<string>): (r: seq<seq<string>>)
    ensures |r| == |lines| && AllFielded(r)
    decreases |lines|
  {
    if lines == [] then [] else Rows(lines[..|lines| - 1]) + [LineFields(lines[|lines| - 1])]
  }

  /** The files of a manifest line: field 1, and field 2 when the line has one. */
  function LineFiles(t: seq<string>): (r: seq<string>)
    requires |t| >= 2
    ensures 1 <= |r| <= 2 && r[0] == t[1] && (|r| == 2 <==> |t| > 2) && (|r| == 2 ==> r[1] == t[2])
  {
    if |t| > 2 then [t[1], t[2]] else [t[1]]
  }

  /** `sample_fastq` and `paired_end` as the manifest is read. */
  datatype Samples = Samples(fastq: seq<(string, seq<string>)>, paired: bool)

  /** The manifest read so far, and the exception that stopped it. */
  datatype Reading = Reading(s: Samples, error: Option<string>)

  /** Split lines always have a first field. */
  predicate AllFielded(rows: seq<seq<string>>) {
    forall i :: 0 <= i < |rows| ==> |rows[i]| >= 1
  }

  /**
   * One line, given its fields: the sample's list is reset, then field 1
   * (a line without a comma raises IndexError there) and field 2 are
   * appended, and a third field marks the run paired-end.
   */
  function ReadRow(s: Samples, t: seq<string>): Reading
    requires |t| >= 1
  {
    if |t| < 2 then Reading(s.(fastq := Store(s.fastq, t[0], [])), Some("IndexError: list index out of range"))
    else Reading(Samples(Store(s.fastq, t[0], LineFiles(t)), s.paired || |t| > 2), None)
  }

  /** The lines in order, stopping at the first exception. */
  function ReadSamples(rows: seq<seq<string>>, init: Samples): Reading
    requires AllFielded(rows)
    decreases |rows|
  {
    if rows == [] then Reading(init, None)
    else
      var r := ReadSamples(rows[..|rows| - 1], init);
      if r.error.Some? then r else ReadRow(r.s, rows[|rows| - 1])
  }

  /** Reading one more line: the lines before it, then that line unless they raised. */
  lemma ReadSamplesSnoc(rows: seq<seq<string>>, t: seq<string>, init: Samples)
    requires AllFielded(rows) && |t| >= 1
    ensures AllFielded(rows + [t])
    ensures var r := ReadSamples(rows, init);
      ReadSamples(rows + [t], init) == if r.error.Some? then r else ReadRow(r.s, t)
  {
    assert (rows + [t])[..|rows|] == rows;
  }

  /** Reading the manifest up to one more line: that line is read unless an earlier one raised. */
  lemma ReadLinesSnoc(lines: seq<string>, i: nat, init: Samples)
    requires i < |lines|
    ensures var r := ReadSamples(Rows(lines[..i]), init);
      ReadSamples(Rows(lines[..i + 1]), init) == if r.error.Some? then r else ReadRow(r.s, LineFields(lines[i]))
  {
    assert lines[..i + 1][..i] == lines[..i];
    ReadSamplesSnoc(Rows(lines[..i]), LineFields(lines[i]), init);
  }

  /** The fields of the first lines are the first rows. */
  lemma {:induction false} RowsPrefix(lines: seq<string>, n: nat)
    requires n <= |lines|
    ensures Rows(lines)[..n] == Rows(lines[..n])
    decreases |lines|
  {
    if n < |lines| {
      var m := |lines| - 1;
      RowsPrefix(lines[..m], n);
      assert lines[..m][..n] == lines[..n];
      assert Rows(lines)[..m] == Rows(lines[..m]);
    } else {
      assert lines[..n] == lines;
    }
  }

  /** Once a line raises, the lines after it are never read. */
  lemma {:induction false} ReadSamplesStops(rows: seq<seq<string>>, init: Samples, n: nat)
    requires AllFielded(rows) && n <= |rows|
    requires AllFielded(rows[..n]) && ReadSamples(rows[..n], init).error.Some?
    ensures ReadSamples(rows, init) == ReadSamples(rows[..n], init)
    decreases |rows|
  {
    if n < |rows| {
      var m := |rows| - 1;
      assert rows[..m][..n] == rows[..n];
      ReadSamplesStops(rows[..m], init, n);
    } else {
      assert rows[..n] == rows;
    }
  }

  /** Once a line of the manifest raises, the lines after it are never read. */
  lemma ReadLinesStop(lines: seq<string>, init: Samples, n: nat)
    requires n <= |lines|
    requires ReadSamples(Rows(lines[..n]), init).error.Some?
    ensures ReadSamples(Rows(lines), init) == ReadSamples(Rows(lines[..n]), init)
  {
    RowsPrefix(lines, n);
    ReadSamplesStops(Rows(lines), init, n);
  }

  /** The files of the last line naming `id`, if any. */
  function LastFiles(rows: seq<seq<string>>, id: string): Option<seq<string>>
    decreases |rows|
  {
    if rows == [] then None
    else
      var t := rows[|rows| - 1];
      if |t| >= 2 && t[0] == id then Some(LineFiles(t)) else LastFiles(rows[..|rows| - 1], id)
  }

  /** Some line has no comma. */
  predicate HasShortLine(rows: seq<seq<string>>) {
    exists i :: 0 <= i < |rows| && |rows[i]| < 2
  }

  /** Some line has a third field. */
  predicate HasPairedLine(rows: seq<seq<string>>) {
    exists i :: 0 <= i < |rows| && |rows[i]| > 2
  }

  /** Reading the manifest raises exactly when some line has no comma. */
  lemma {:induction false} ReadSamplesError(rows: seq<seq<string>>, init: Samples)
    requires AllFielded(rows)
    ensures ReadSamples(rows, init).error.Some? <==> HasShortLine(rows)
    decreases |rows|
  {
    if rows != [] {
      var n := |rows| - 1;
      var pre := rows[..n];
      ReadSamplesError(pre, init);
      assert forall i :: 0 <= i < n ==> pre[i] == rows[i];
      assert HasShortLine(rows) <==> HasShortLine(pre) || |rows[n]| < 2;
    }
  }

  /** A manifest read to the end marks the run paired-end exactly when it was already or some line has a third field. */
  lemma {:induction false} ReadSamplesPaired(rows: seq<seq<string>>, init: Samples)
    requires AllFielded(rows)
    ensures var r := ReadSamples(rows, init);
      r.error.None? ==> (r.s.paired <==> init.paired || HasPairedLine(rows))
    decreases |rows|
  {
    if rows != [] {
      var n := |rows| - 1;
      var pre := rows[..n];
      ReadSamplesPaired(pre, init);
      assert forall i :: 0 <= i < n ==> pre[i] == rows[i];
      assert HasPairedLine(rows) <==> HasPairedLine(pre) || |rows[n]| > 2;
    }
  }

  /**
   * Later lines win: in a manifest read to the end each sample id maps to
   * the files of the last line naming it, and ids never named keep their
   * earlier entry.
   */
  lemma {:induction false} ReadSamplesLast(rows: seq<seq<string>>, init: Samples, id: string)
    requires AllFielded(rows)
    ensures var r := ReadSamples(rows, init);
      r.error.None? ==>
        Get(r.s.fastq, id) == if LastFiles(rows, id).Some? then LastFiles(rows, id) else Get(init.fastq, id)
    decreases |rows|
  {
    if rows != [] {
      var n := |rows| - 1;
      ReadSamplesLast(rows[..n], init, id);
      var r0 := ReadSamples(rows[..n], init);
      var t := rows[n];
      if r0.error.None? && |t| >= 2 {
        StoreFacts(r0.s.fastq, t[0], LineFiles(t));
      }
    }
  }

  // ---------------------------------------------------------------------
  // symlink_fastqs naming

  /** The work file a sample's `num`-th source is linked to, when it has several. */
  function NumberedName(fastqDir: string, samp: string, num: int): string {
    PathJoin(fastqDir, samp + "_" + IntToStr(num) + ".fq.gz")
  }

  /** The work files of a sample: fastq_dir/<s>.fq.gz for one source, <s>_<i>.fq.gz from 1 otherwise. */
  function LinkNames(fastqDir: string, samp: string, files: seq<string>): seq<string> {
    if |files| < 2 then [PathJoin(fastqDir, samp + ".fq.gz")]
    else seq(|files|, i requires 0 <= i < |files| => NumberedName(fastqDir, samp, i + 1))
  }

  /** The link command for one source. */
  function LinkCmd(source: string, name: string): string {
    Join(" ", ["/bin/ln", "-s", source, name, "; echo DONE:", source, ">> "])
  }

  /** `symlink_fastqs` as it goes: `sample_fastq_work`, the command list, and the exception that stopped it. */
  datatype Linking = Linking(work: seq<(string, seq<string>)>, cmds: seq<string>, error: Option<string>)

  /**
   * One sample: its work list is reset; with no source at all the first
   * command raises IndexError; otherwise one link per source.
   */
  function LinkSample(l: Linking, fastqDir: string, samp: string, files: seq<string>): Linking {
    if files == [] then l.(work := Store(l.work, samp, []), error := Some("IndexError: list index out of range"))
    else
      var names := LinkNames(fastqDir, samp, files);
      var cs := if |files| < 2 then [LinkCmd(files[0], names[0])]
                else seq(|files|, i requires 0 <= i < |files| => LinkCmd(files[i], names[i]));
      Linking(Store(l.work, samp, names), l.cmds + cs, None)
  }

  /** The samples of `sample_fastq` in order, stopping at the first exception. */
  function LinkAll(ps: seq<(string, seq<string>)>, fastqDir: string, l: Linking): Linking
    decreases |ps|
  {
    if ps == [] then l
    else
      var r := LinkAll(ps[..|ps| - 1], fastqDir, l);
      if r.error.Some? then r else LinkSample(r, fastqDir, ps[|ps| - 1].0, ps[|ps| - 1].1)
  }

  /** Linking one more sample: the samples before it, then that sample unless they raised. */
  lemma LinkAllStep(ps: seq<(string, seq<string>)>, fastqDir: string, l: Linking, i: nat)
    requires i < |ps|
    ensures var r := LinkAll(ps[..i], fastqDir, l);
      LinkAll(ps[..i + 1], fastqDir, l) == if r.error.Some? then r else LinkSample(r, fastqDir, ps[i].0, ps[i].1)
  {
    assert ps[..i + 1][..i] == ps[..i];
  }

  /** Once a sample raises, the samples after it are never linked. */
  lemma {:induction false} LinkAllStops(ps: seq<(string, seq<string>)>, fastqDir: string, l: Linking, n: nat)
    requires n <= |ps| && LinkAll(ps[..n], fastqDir, l).error.Some?
    ensures LinkAll(ps, fastqDir, l) == LinkAll(ps[..n], fastqDir, l)
    decreases |ps|
  {
    if n < |ps| {
      var m := |ps| - 1;
      assert ps[..m][..n] == ps[..n];
      LinkAllStops(ps[..m], fastqDir, l, n);
    } else {
      assert ps[..n] == ps;
    }
  }

  /** Appending the same text after two different texts keeps them different. */
  lemma SuffixCancel(a: string, b: string, s: string)
    requires a + s == b + s
    ensures a == b
  {
    assert a == (a + s)[..|a|];
    assert |a| == |b|;
    assert b == (b + s)[..|b|];
  }

  /** Joining two relative names that start alike onto one directory: the paths are equal only if the names are. */
  lemma PathJoinInjective(a: string, b1: string, b2: string)
    requires b1 != [] && b2 != [] && b1[0] == b2[0] && PathJoin(a, b1) == PathJoin(a, b2)
    ensures b1 == b2
  {
    assert StartsWith(b1, "/") <==> b1[0] == '/';
    assert StartsWith(b2, "/") <==> b2[0] == '/';
    var head := if b1[0] == '/' then "" else if a == "" || EndsWith(a, "/") then a else a + "/";
    assert PathJoin(a, b1) == head + b1;
    assert PathJoin(a, b2) == head + b2;
    assert b1 == (head + b1)[|head|..];
    assert b2 == (head + b2)[|head|..];
  }

  /** Different numbers give different work files. */
  lemma NumberedNamesDistinct(fastqDir: string, samp: string, i: int, j: int)
    requires i != j
    ensures NumberedName(fastqDir, samp, i) != NumberedName(fastqDir, samp, j)
  {
    var pre := samp + "_";
    var bi := pre + IntToStr(i) + ".fq.gz";
    var bj := pre + IntToStr(j) + ".fq.gz";
    if NumberedName(fastqDir, samp, i) == NumberedName(fastqDir, samp, j) {
      assert bi[0] == pre[0] && bj[0] == pre[0];
      PathJoinInjective(fastqDir, bi, bj);
      SuffixCancel(pre + IntToStr(i), pre + IntToStr(j), ".fq.gz");
      assert IntToStr(i) == (pre + IntToStr(i))[|pre|..];
      assert IntToStr(j) == (pre + IntToStr(j))[|pre|..];
      IntToStrInjective(i, j);
    }
  }

  /**
   * A sample with sources gets one work file per source (one for a single
   * source), all different, numbered from 1 when there are several; the
   * i-th link command links the i-th source to the i-th work file.
   */
  lemma LinkSampleFacts(l: Linking, fastqDir: string, samp: string, files: seq<string>)
    requires l.error.None?
    ensures LinkSample(l, fastqDir, samp, files).error.Some? <==> files == []
    ensures files != [] ==>
      var r := LinkSample(l, fastqDir, samp, files);
      var names := LinkNames(fastqDir, samp, files);
      && Get(r.work, samp) == Some(names)
      && (forall k :: k != samp ==> Get(r.work, k) == Get(l.work, k))
      && |names| == |files| && |r.cmds| == |l.cmds| + |files| && r.cmds[..|l.cmds|] == l.cmds
      && (forall i :: 0 <= i < |files| ==> r.cmds[|l.cmds| + i] == LinkCmd(files[i], names[i]))
      && (forall i, j :: 0 <= i < j < |names| ==> names[i] != names[j])
      && (|files| >= 2 ==> forall i :: 0 <= i < |files| ==> names[i] == NumberedName(fastqDir, samp, i + 1))
  {
    if files != [] {
      var names := LinkNames(fastqDir, samp, files);
      StoreFacts(l.work, samp, names);
      var r := LinkSample(l, fastqDir, samp, files);
      assert r.cmds[..|l.cmds|] == l.cmds;
      if |files| >= 2 {
        forall i, j | 0 <= i < j < |names| ensures names[i] != names[j] {
          NumberedNamesDistinct(fastqDir, samp, i + 1, j + 1);
        }
      }
    }
  }

  // ---------------------------------------------------------------------
  // convert_sra_to_fastq_cmds work paths

  /** The work files of an SRA sample: <s>.fq.gz, or <s>_1.fq.gz and <s>_2.fq.gz when paired, whatever the run count. */
  function SraNames(fastqDir: string, samp: string, paired: bool): seq<string> {
    if !paired then [PathJoin(fastqDir, samp + ".fq.gz")]
    else [PathJoin(fastqDir, samp + "_1.fq.gz"), PathJoin(fastqDir, samp + "_2.fq.gz")]
  }

  /**
   * One sample of `convert_sra_to_fastq_cmds`: `paired_end` is read first
   * (an attribute never set raises), then a single run is read as
   * `fileName[0]`, so no run at all raises.
   */
  function SraSample(work: seq<(string, seq<string>)>, fastqDir: string, samp: string, files: seq<string>, paired: Option<bool>): (seq<(string, seq<string>)>, Option<string>) {
    if paired.None? then (Store(work, samp, []), Some("AttributeError: no attribute 'paired_end'"))
    else if files == [] then (Store(work, samp, []), Some("IndexError: list index out of range"))
    else (Store(work, samp, SraNames(fastqDir, samp, paired.value)), None)
  }

  /** The samples in order, stopping at the first exception. */
  function SraAll(ps: seq<(string, seq<string>)>, fastqDir: string, paired: Option<bool>, work: seq<(string, seq<string>)>): (seq<(string, seq<string>)>, Option<string>)
    decreases |ps|
  {
    if ps == [] then (work, None)
    else
      var r := SraAll(ps[..|ps| - 1], fastqDir, paired, work);
      if r.1.Some? then r else SraSample(r.0, fastqDir, ps[|ps| - 1].0, ps[|ps| - 1].1, paired)
  }

  /** Converting one more sample: the samples before it, then that sample unless they raised. */
  lemma SraAllStep(ps: seq<(string, seq<string>)>, fastqDir: string, paired: Option<bool>,
                   work: seq<(string, seq<string>)>, i: nat)
    requires i < |ps|
    ensures var r := SraAll(ps[..i], fastqDir, paired, work);
      SraAll(ps[..i + 1], fastqDir, paired, work) == if r.1.Some? then r else SraSample(r.0, fastqDir, ps[i].0, ps[i].1, paired)
  {
    assert ps[..i + 1][..i] == ps[..i];
  }

  /** Once a sample raises, the samples after it are never converted. */
  lemma {:induction false} SraAllStops(ps: seq<(string, seq<string>)>, fastqDir: string, paired: Option<bool>,
                                       work: seq<(string, seq<string>)>, n: nat)
    requires n <= |ps| && SraAll(ps[..n], fastqDir, paired, work).1.Some?
    ensures SraAll(ps, fastqDir, paired, work) == SraAll(ps[..n], fastqDir, paired, work)
    decreases |ps|
  {
    if n < |ps| {
      var m := |ps| - 1;
      assert ps[..m][..n] == ps[..n];
      SraAllStops(ps[..m], fastqDir, paired, work, n);
    } else {
      assert ps[..n] == ps;
    }
  }

  /**
   * A sample converted from SRA gets the same work files as a symlinked
   * one with one source (single-end) or two (paired-end), so the later
   * steps see the same names either way.
   */
  lemma SraNamesMatchLinks(fastqDir: string, samp: string, files: seq<string>, paired: bool)
    requires if paired then |files| == 2 else |files| == 1
    ensures SraNames(fastqDir, samp, paired) == LinkNames(fastqDir, samp, files)
  {
    if paired {
      var l := LinkNames(fastqDir, samp, files);
      assert IntToStr(1) == "1" && IntToStr(2) == "2";
      assert samp + "_" + "1" + ".fq.gz" == samp + "_1.fq.gz";
      assert samp + "_" + "2" + ".fq.gz" == samp + "_2.fq.gz";
      assert l[0] == NumberedName(fastqDir, samp, 1);
      assert l[1] == NumberedName(fastqDir, samp, 2);
    }
  }

  /** One line of sra_sample_fastq.csv: the id and the work files, comma-joined, with commas trimmed from both ends. */
  function CsvLine(k: string, v: seq<string>): string {
    Strip(k + "," + Join(",", v), {','}) + "\n"
  }

  /** Stripping characters that are not at either end changes nothing. */
  lemma StripNoop(s: string, cs: set<char>)
    requires s != [] && s[0] !in cs && s[|s| - 1] !in cs
    ensures Strip(s, cs) == s
  {
  }

  /**
   * For an id and work files that are non-empty and hold no comma, the
   * line splits back into the id followed by the files.
   */
  lemma CsvLineFields(k: string, v: seq<string>)
    requires k != [] && ',' !in k
    requires forall i :: 0 <= i < |v| ==> v[i] != [] && ',' !in v[i]
    ensures var line := CsvLine(k, v);
      line[|line| - 1] == '\n' && Split(line[..|line| - 1], ',') == [k] + v
  {
    var line := CsvLine(k, v);
    var body := k + "," + Join(",", v);
    if v == [] {
      assert body == k + [','];
      assert LStrip(body, {','}) == body;
      assert RStrip(body, {','}) == RStrip(k, {','});
      assert RStrip(k, {','}) == k;
      assert line[..|line| - 1] == k;
      SplitNoSep(k, ',');
    } else {
      var parts := [k] + v;
      assert Join(",", parts) == body by {
        assert parts[1..] == v;
      }
      var last := v[|v| - 1];
      JoinEndsWithLast(",", parts);
      assert body[|body| - 1] == last[|last| - 1];
      StripNoop(body, {','});
      assert line[..|line| - 1] == body;
      assert "," == [','];
      SplitJoin(parts, ',');
    }
  }

  /** A join of parts whose last part is non-empty ends with that part's last character. */
  lemma {:induction false} JoinEndsWithLast(sep: string, parts: seq<string>)
    requires |parts| >= 1 && parts[|parts| - 1] != []
    ensures var j := Join(sep, parts); var last := parts[|parts| - 1];
      j != [] && j[|j| - 1] == last[|last| - 1]
    decreases |parts|
  {
    if |parts| > 1 {
      JoinEndsWithLast(sep, parts[1..]);
    }
  }

  /** `sample_fastq_work` written as sra_sample_fastq.csv, in the dictionary's order. */
  function CsvFile(work: seq<(string, seq<string>)>): string
    decreases |work|
  {
    if work == [] then "" else CsvFile(work[..|work| - 1]) + CsvLine(work[|work| - 1].0, work[|work| - 1].1)
  }
}
