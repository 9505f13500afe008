// The luigi tasks of bioflows/definedworkflows/rnaseq/rnaseqworkflow.py:
// the job script and log files `BaseTask.setup` derives from a task's first
// encoded wrapper, the checkpoint a task reports as its output, and the
// chain `TaskSequence.requires` builds by dropping the head of the list.
module Tasks {
  import opened Wrappers
  import opened PyStr
  import opened Params
  import opened BaseWrappers

  /**
   * `jsonpickle.encode(wrapper)` right after the constructor: the wrapper's
   * fields and the contents of its job_parms dictionary at that moment.
   */
  datatype Encoded = Encoded(w: WState, jobParms: map<string, Val>)

  /** A luigi task of the chain and its `prog_parms` list. */
  datatype Task = TaskSequence(progParms: seq<Encoded>) | TopTask(progParms: seq<Encoded>)

  /** What `setup` leaves on the task: the decoded wrapper, the job parameters and the task name. */
  datatype SetUp = SetUp(parms: Encoded, jobparms: map<string, Val>, name: string)

  const ScriptHead := "#SBATCH -vvvv\nset -e\necho $PATH\n"
  const PathBanner := "\n***** New PATH *****\necho$PATH\n\n"
  const JavaBanner := "\n***** checking Java****\njava -version\n\n"
  const DoneMarker := " echo 'DONE' > "
  const RemoteHost := "ssh.ccv.brown.edu:"

  /** The job script: the fixed header, the conda command, the banners, the srun line and the DONE marker. */
  function JobScript(conda: string, run: string, target: string): string {
    ScriptHead + conda + "\n" + PathBanner + JavaBanner + "srun " + run + "\n" + DoneMarker + target
  }

  /**
   * The script opens with the header and the conda command, and closes with
   * the srun line followed directly by the command writing DONE into the
   * checkpoint.
   */
  lemma JobScriptShape(conda: string, run: string, target: string)
    ensures StartsWith(JobScript(conda, run, target), ScriptHead + conda + "\n")
    ensures EndsWith(JobScript(conda, run, target), "srun " + run + "\n" + DoneMarker + target)
  {
    var a := ScriptHead + conda + "\n";
    var b := PathBanner + JavaBanner;
    var c := "srun " + run + "\n" + DoneMarker + target;
    ScriptPieces(ScriptHead, conda, "\n", PathBanner, JavaBanner, "srun ", run, "\n", DoneMarker, target);
    ThreeParts(a, b, c);
  }

  /** The ten pieces of a job script, grouped as head, banners and srun line. */
  lemma ScriptPieces(h: string, c: string, n1: string, pb: string, jb: string, s: string, r: string, n2: string, dm: string, t: string)
    ensures h + c + n1 + pb + jb + s + r + n2 + dm + t == (h + c + n1) + (pb + jb) + (s + r + n2 + dm + t)
  {
  }

  /** A concatenation of three strings starts with the first and ends with the last. */
  lemma ThreeParts(a: string, b: string, c: string)
    ensures StartsWith(a + b + c, a) && EndsWith(a + b + c, c)
  {
    assert (a + b + c)[..|a|] == a;
    assert (a + b + c)[|a + b + c| - |c|..] == c;
  }

  /** The task name: the sample, "_", and the wrapper's name with spaces turned into '_'. */
  function JobName(input: string, name: string): (r: string)
    ensures |r| == |input| + 1 + |name| && StartsWith(r, input + "_")
    ensures forall i :: 0 <= i < |name| ==> r[|input| + 1 + i] == (if name[i] == ' ' then '_' else name[i])
  {
    input + "_" + ReplaceChar(name, ' ', '_')
  }

  /** The fields of a decoded wrapper that `setup` reads. */
  datatype JobInput = JobInput(
    input: string, name: string, cwd: string, logDir: string,
    conda: Option<string>, run: Option<string>, target: string, localTarget: Option<string>,
    jobParms: map<string, Val>)

  function Decoded(p: Encoded): JobInput {
    JobInput(p.w.input, p.w.name, p.w.conf.dirs.cwd, p.w.conf.dirs.logDir,
      p.w.conf.condaCommand, p.w.runCommand, p.w.conf.ckpt.luigiTarget, p.w.conf.ckpt.luigiLocalTarget, p.jobParms)
  }

  /** The job parameters after the fixed entries: work directory, script and the two saga log files. */
  function LocalJobParms(j: JobInput, name: string): map<string, Val>
    requires j.conda.Some? && j.run.Some?
  {
    j.jobParms["workdir" := Text(j.cwd)]
              ["command" := Text(JobScript(j.conda.value, j.run.value, j.target))]
              ["out" := Text(PathJoin(j.logDir, name + "_mysagajob.stdout"))]
              ["error" := Text(PathJoin(j.logDir, name + "_mysagajob.stderr"))]
  }

  /**
   * `setup` on a decoded wrapper. A missing conda command or run command
   * raises on the string concatenation, a job_parms without saga_host
   * raises KeyError, and a remote host needs the local checkpoint to stage
   * the output back.
   */
  function JobSetup(j: JobInput): Result<(map<string, Val>, string)> {
    if j.conda.None? || j.run.None? then
      Failure("TypeError: cannot concatenate 'str' and 'NoneType' objects")
    else
      var name := JobName(j.input, j.name);
      SagaTarget(LocalJobParms(j, name), name, j)
  }

  /**
   * The host-dependent part of `setup`: a job_parms without saga_host
   * raises KeyError, a local host keeps the parameters, and a remote host
   * stages the output back to the directory of the local checkpoint.
   */
  function SagaTarget(jp: map<string, Val>, name: string, j: JobInput): Result<(map<string, Val>, string)> {
    if "saga_host" !in jp then Failure("KeyError: 'saga_host'")
    else if jp["saga_host"] == Text("localhost") then Success((jp, name))
    else if j.localTarget.None? then Failure("AttributeError: 'NoneType' object has no attribute 'rfind'")
    else Success((jp["outfilesource" := Text(RemoteHost + j.target)]
                     ["outfiletarget" := Text(DirName(j.localTarget.value) + "/")], name))
  }

  /** `setup`: decode the first wrapper of the list and derive the job's parameters. */
  function SetupOf(progParms: seq<Encoded>): Result<SetUp> {
    if progParms == [] then Failure("IndexError: list index out of range")
    else
      var r :- JobSetup(Decoded(progParms[0]));
      Success(SetUp(progParms[0], r.0, r.1))
  }

  /**
   * A set-up job runs the wrapper's script in the wrapper's working
   * directory and logs to <log_dir>/<name>_mysagajob.stdout and .stderr.
   */
  lemma SetupFacts(j: JobInput)
    requires JobSetup(j).Success?
    ensures var (jp, name) := JobSetup(j).value;
      && name == JobName(j.input, j.name)
      && jp["workdir"] == Text(j.cwd)
      && jp["command"] == Text(JobScript(j.conda.value, j.run.value, j.target))
      && jp["out"] == Text(PathJoin(j.logDir, name + "_mysagajob.stdout"))
      && jp["error"] == Text(PathJoin(j.logDir, name + "_mysagajob.stderr"))
  {
  }

  /** Every other entry of the wrapper's job_parms reaches the job unchanged. */
  lemma SetupKeeps(j: JobInput, k: string)
    requires JobSetup(j).Success? && k in j.jobParms
    requires k != "workdir" && k != "command" && k != "out" && k != "error" && k != "outfilesource" && k != "outfiletarget"
    ensures k in JobSetup(j).value.0 && JobSetup(j).value.0[k] == j.jobParms[k]
  {
  }

  /**
   * The output is staged back from the remote host when saga_host is not
   * 'localhost'; on the local host nothing is added to the fixed entries.
   */
  lemma SetupStaging(j: JobInput)
    requires JobSetup(j).Success?
    ensures var jp := JobSetup(j).value.0;
      && "saga_host" in jp
      && (jp["saga_host"] != Text("localhost") ==>
            && "outfilesource" in jp && jp["outfilesource"] == Text(RemoteHost + j.target)
            && "outfiletarget" in jp && j.localTarget.Some?
            && jp["outfiletarget"] == Text(DirName(j.localTarget.value) + "/"))
      && (jp["saga_host"] == Text("localhost") ==> jp == LocalJobParms(j, JobName(j.input, j.name)))
  {
  }

  /** `output()`: the local checkpoint when local targets are on, else the checkpoint under cwd. */
  function Output(t: Task): Result<string> {
    var s :- SetupOf(t.progParms);
    var ck := s.parms.w.conf.ckpt;
    if !Truthy(ck.localTarget) then Success(ck.luigiTarget)
    else if ck.luigiLocalTarget.None? then Failure("AttributeError: object has no attribute 'luigi_local_target'")
    else Success(ck.luigiLocalTarget.value)
  }

  /**
   * `requires()`: set up, then drop the head; two or more left make another
   * TaskSequence, fewer a TopTask. A TopTask requires nothing.
   */
  function Requires(t: Task): Result<Option<Task>> {
    match t
    case TopTask(_) => Success(None)
    case TaskSequence(l) =>
      var _ :- SetupOf(l);
      var rest := l[1..];
      if |rest| > 1 then Success(Some(TaskSequence(rest))) else Success(Some(TopTask(rest)))
  }

  /** A task's setup depends only on the first element of its list. */
  lemma SetupHead(a: seq<Encoded>, b: seq<Encoded>)
    requires a != [] && b != [] && a[0] == b[0]
    ensures SetupOf(a) == SetupOf(b)
  {
  }

  /**
   * The chain over a list of at least two wrappers: the task on the suffix
   * from i requires the task on the suffix from i + 1, which is a
   * TaskSequence except for the last element alone, a TopTask. The last
   * element therefore runs first and the head of the list last.
   */
  lemma ChainLinks(l: seq<Encoded>, i: nat)
    requires |l| >= 2 && i < |l| - 1
    requires SetupOf([l[i]]).Success?
    ensures Requires(TaskSequence(l[i..])) == Success(Some(
      if i < |l| - 2 then TaskSequence(l[i + 1..]) else TopTask([l[|l| - 1]])))
    ensures Requires(TopTask([l[|l| - 1]])) == Success(None)
  {
    SetupHead(l[i..], [l[i]]);
    assert l[i..][1..] == l[i + 1..];
    if i == |l| - 2 {
      assert l[i + 1..] == [l[|l| - 1]];
    }
  }

  /**
   * A list of one wrapper is chained to a TopTask with an empty list, whose
   * setup fails on `prog_parms[0]`: it can neither run nor report an output.
   */
  lemma SingleRecordChain(x: Encoded)
    requires SetupOf([x]).Success?
    ensures Requires(TaskSequence([x])) == Success(Some(TopTask([])))
    ensures Output(TopTask([])).Failure? && SetupOf([]).Failure?
  {
    assert [x][1..] == [];
  }

  /** The intended chain step: a list of one wrapper requires nothing further. */
  function RequiresFixed(t: Task): Result<Option<Task>> {
    match t
    case TopTask(_) => Success(None)
    case TaskSequence(l) =>
      var _ :- SetupOf(l);
      var rest := l[1..];
      if |rest| > 1 then Success(Some(TaskSequence(rest)))
      else if |rest| == 1 then Success(Some(TopTask(rest)))
      else Success(None)
  }

  /**
   * With the fix every task reached from a non-empty list holds a non-empty
   * list, and longer lists chain exactly as before.
   */
  lemma RequiresFixedReachesOnlyNonEmpty(l: seq<Encoded>)
    requires l != [] && SetupOf(l).Success?
    ensures match RequiresFixed(TaskSequence(l))
      case Success(Some(t)) => t.progParms != [] && t.progParms == l[1..]
      case Success(None) => |l| == 1
      case Failure(_) => false
    ensures |l| >= 2 ==> RequiresFixed(TaskSequence(l)) == Requires(TaskSequence(l))
  {
  }

  /** The task object `setup` fills in. */
  class BaseTask {
    var parms: Option<Encoded>
    var jobparms: map<string, Val>
    var name: string

    constructor ()
      ensures parms.None? && jobparms == map[] && name == ""
    {
      parms := None;
      jobparms := map[];
      name := "";
    }

    /** `setup`, writing the script with successive `+=` as the source does. */
    method Setup(progParms: seq<Encoded>) returns (r: Result<()>)
      modifies this
      ensures r.Success? <==> SetupOf(progParms).Success?
      ensures r.Failure? ==> r.error == SetupOf(progParms).error
      ensures r.Success? ==> parms.Some? && SetupOf(progParms).value == SetUp(parms.value, jobparms, name)
    {
      if progParms == [] {
        return Failure("IndexError: list index out of range");
      }
      var p := progParms[0];
      parms := Some(p);
      var j := Decoded(p);
      jobparms := j.jobParms["workdir" := Text(j.cwd)];
      var command := ScriptHead;
      if j.conda.None? {
        return Failure("TypeError: cannot concatenate 'str' and 'NoneType' objects");
      }
      command := command + j.conda.value + "\n";
      command := command + PathBanner;
      command := command + JavaBanner;
      command := command + "srun ";
      if j.run.None? {
        return Failure("TypeError: cannot concatenate 'str' and 'NoneType' objects");
      }
      command := command + j.run.value + "\n";
      command := command + DoneMarker + j.target;
      assert command == JobScript(j.conda.value, j.run.value, j.target);
      jobparms := jobparms["command" := Text(command)];
      name := j.input + "_" + ReplaceChar(j.name, ' ', '_');
      assert name == JobName(j.input, j.name);
      jobparms := jobparms["out" := Text(PathJoin(j.logDir, name + "_mysagajob.stdout"))];
      jobparms := jobparms["error" := Text(PathJoin(j.logDir, name + "_mysagajob.stderr"))];
      assert jobparms == LocalJobParms(j, name);
      if "saga_host" !in jobparms {
        return Failure("KeyError: 'saga_host'");
      }
      if jobparms["saga_host"] != Text("localhost") {
        jobparms := jobparms["outfilesource" := Text(RemoteHost + j.target)];
        if j.localTarget.None? {
          return Failure("AttributeError: 'NoneType' object has no attribute 'rfind'");
        }
        jobparms := jobparms["outfiletarget" := Text("" + DirName(j.localTarget.value) + "/")];
        assert "" + DirName(j.localTarget.value) + "/" == DirName(j.localTarget.value) + "/";
      }
      r := Success(());
    }
  }
}
