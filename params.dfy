// The values that flow through a bioflows run: scalar configuration
// values, the job-parameter dictionary that wrappers share and update in
// place, the keyword-argument dictionary handed to every wrapper, and the
// host facts (hash function, process directory) the code asks the OS for.
module Params {
  import opened Wrappers
  import opened PyStr

  /** A scalar read from the YAML configuration (floats are not modelled). */
  datatype Val = Num(n: int) | Text(s: string) | Flag(b: bool) | Null

  /** Python 2 `str(v)`. */
  function ValStr(v: Val): string {
    match v
    case Num(n) => IntToStr(n)
    case Text(s) => s
    case Flag(b) => if b then "True" else "False"
    case Null => "None"
  }

  /** Python truthiness of a scalar. */
  predicate Truthy(v: Val) {
    match v
    case Num(n) => n != 0
    case Text(s) => s != ""
    case Flag(b) => b
    case Null => false
  }

  /** `str(v)` of a text value is the text itself, and of a number its decimal form. */
  lemma ValStrText(s: string, n: int)
    ensures ValStr(Text(s)) == s
    ensures ParseInt(ValStr(Num(n))) == Some(n)
  {
    ParseIntToStr(n);
  }

  /** The string 'False' read from a configuration file is truthy in Python. */
  lemma FalseStringIsTruthy()
    ensures Truthy(Text("False")) && !Truthy(Flag(false))
  {
  }

  /** An option value in a step declaration: a scalar, a list, or an empty (YAML null) value. */
  datatype OptVal = Scalar(v: Val) | ListOf(items: seq<Val>) | NoValue

  /** A job-parameter dictionary (mem, time, ncpus, saga_host, ...), shared by reference. */
  class JobParms {
    var entries: map<string, Val>

    constructor (m: map<string, Val>)
      ensures entries == m
    {
      entries := m;
    }

    /** `dict.update(m)`: keys of `m` take `m`'s values, every other key is kept. */
    method Update(m: map<string, Val>)
      modifies this
      ensures entries == old(entries) + m
      ensures forall k :: k in m ==> entries[k] == m[k]
      ensures forall k :: k in old(entries) && k !in m ==> entries[k] == old(entries)[k]
    {
      entries := entries + m;
    }

    /** `copy.deepcopy` of the dictionary: a fresh object with the same entries. */
    method Copy() returns (c: JobParms)
      ensures fresh(c) && c.entries == entries
    {
      c := new JobParms(entries);
    }
  }

  /**
   * The keyword arguments given to a wrapper. `None` means the key is
   * absent, so `kwargs.get(key)` is None and `kwargs.get(key, d)` is d.
   */
  datatype Kwargs = Kwargs(
    cwd: Option<string>,
    workDir: Option<string>,
    logDir: Option<string>,
    alignDir: Option<string>,
    qcDir: Option<string>,
    checkpointDir: Option<string>,
    sraDir: Option<string>,
    fastqDir: Option<string>,
    expressionDir: Option<string>,
    gatkDir: Option<string>,
    qiimeDir: Option<string>,
    condaCommand: Option<string>,
    jobParms: JobParms?,
    jobParmsType: Option<string>,
    addJobParms: Option<map<string, Val>>,
    pairedEnd: Option<Val>,
    localTargets: Option<Val>,
    luigiLocalPath: Option<string>,
    gtfFile: Option<string>,
    refFastaPath: Option<string>,
    genomeFile: Option<string>,
    target: Option<string>,
    stdout: Option<string>,
    stderr: Option<string>,
    stdoutAppend: Option<string>,
    maxConcurrency: Option<int>,
    progId: Option<string>,
    suffixType: Option<string>,
    suffix: Option<map<string, string>>)

  /** A keyword dictionary with no keys at all. */
  function NoKwargs(): Kwargs {
    Kwargs(None, None, None, None, None, None, None, None, None, None, None, None,
      null, None, None, None, None, None, None, None, None, None, None, None, None,
      None, None, None, None)
  }

  /**
   * The custom-override rule every wrapper applies: `job_parms_type` other
   * than 'default' (absent included) selects `add_job_parms`.
   */
  predicate IsCustom(kw: Kwargs) {
    kw.jobParmsType != Some("default")
  }

  /** What the process asks the OS for: sha224 hex digests and the current directory. */
  datatype Host = Host(sha224: string -> string, cwd: string)

  /** sha224 hex digests are 56 characters long. */
  ghost predicate FixedDigests(host: Host) {
    forall s :: |host.sha224(s)| == 56
  }

  /** os.path.abspath without normalisation: relative paths are taken from the process directory. */
  function AbsPath(host: Host, p: string): string {
    PathJoin(host.cwd, p)
  }

  /** An absolute path is kept; a relative one is resolved under the process directory. */
  lemma AbsPathFacts(host: Host, p: string)
    ensures StartsWith(p, "/") ==> AbsPath(host, p) == p
    ensures !StartsWith(p, "/") ==> AbsPath(host, p) == PathJoin(host.cwd, p) && EndsWith(AbsPath(host, p), p)
  {
    PathJoinFacts(host.cwd, p);
  }

  /**
   * A first argument of `os.path.join` that may be None. Python 2 then
   * raises AttributeError unless the second part is absolute; the model
   * takes the raising case for every second part.
   */
  function Present(a: Option<string>): (r: Result<string>)
    ensures r.Success? <==> a.Some?
    ensures r.Success? ==> r.value == a.value
  {
    match a
    case None => Failure("AttributeError: 'NoneType' object has no attribute 'endswith'")
    case Some(d) => Success(d)
  }

  /**
   * `os.path.join(a, b)` where the directory a may be None. Python 2 then
   * returns b when b is absolute and raises AttributeError otherwise; the
   * model takes the raising case for every b.
   */
  function JoinOpt(a: Option<string>, b: string): (r: Result<string>)
    ensures r.Success? <==> a.Some?
    ensures r.Success? ==> r.value == PathJoin(a.value, b)
  {
    match a
    case None => Failure("AttributeError: 'NoneType' object has no attribute 'endswith'")
    case Some(d) => Success(PathJoin(d, b))
  }

  /** `"..." + x` where x may be None, which raises. */
  function ConcatOpt(prefix: string, x: Option<string>): (r: Result<string>)
    ensures r.Success? <==> x.Some?
    ensures r.Success? ==> r.value == prefix + x.value
  {
    match x
    case None => Failure("TypeError: cannot concatenate 'str' and 'NoneType' objects")
    case Some(s) => Success(prefix + s)
  }

  /** `str(x)` of an optional text value. */
  function OptStr(x: Option<string>): string {
    match x
    case None => "None"
    case Some(s) => s
  }
}
