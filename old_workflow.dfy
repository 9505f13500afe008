// The older copy of the RNA-seq workflow, definedworkflows/rnaseq/rnaseqworkflow.py:
// one mapping of steps with no rounds and options rendered with "%s %s",
// job parameters applied to a fresh copy of base_kwargs for gsnap only, the
// same seven-record gsnap expansion, the download commands for SRA runs, and
// the job script without the PATH and Java banners. The wrapper module it
// imports (the older bioflowsutils.wrappers) is not part of this model, so the
// constructor calls chain_commands makes are recorded, not performed.
module OldWorkflow {
  import opened Wrappers
  import opened PyStr
  import opened Params
  import opened Dicts
  import opened Compile
  import opened Tasks
  import opened Chain
  import opened Config

  // ---------------------------------------------------------------------
  // "%s %s" % (k1, v1)
  // ---------------------------------------------------------------------

  /** One character inside a Python 2 string literal delimited by `q`. */
  function EscapedChar(c: char, q: char): string {
    if c == '\\' then "\\\\"
    else if c == q then ['\\', q]
    else if c == '\n' then "\\n"
    else if c == '\t' then "\\t"
    else if c == '\r' then "\\r"
    else [c]
  }

  function Escaped(s: string, q: char): string
    decreases |s|
  {
    if s == [] then "" else EscapedChar(s[0], q) + Escaped(s[1..], q)
  }

  /** `repr` of a text: single quotes, or double quotes when it holds a single quote and no double quote. */
  function TextRepr(s: string): string {
    if '\'' in s && '"' !in s then "\"" + Escaped(s, '"') + "\"" else "'" + Escaped(s, '\'') + "'"
  }

  /** `repr` of a scalar, as it appears inside the `str` of a list. */
  function ValRepr(v: Val): string {
    match v
    case Text(s) => TextRepr(s)
    case _ => ValStr(v)
  }

  /** `str` of a list: the elements' repr, comma-separated, in brackets. */
  function ListRepr(xs: seq<Val>): string {
    "[" + ReprItems(xs) + "]"
  }

  /** The elements' repr joined by ", ". */
  function ReprItems(xs: seq<Val>): string
    decreases |xs|
  {
    if xs == [] then ""
    else if |xs| == 1 then ValRepr(xs[0])
    else ValRepr(xs[0]) + ", " + ReprItems(xs[1..])
  }

  /** The character an escape letter stands for. */
  function EscapeMeaning(e: char): char {
    if e == 'n' then '\n' else if e == 't' then '\t' else if e == 'r' then '\r' else e
  }

  /** Reading a string literal's body back: a backslash and the next character stand for one character. */
  function Unescaped(t: string): string
    decreases |t|
  {
    if t == [] then ""
    else if t[0] == '\\' && |t| >= 2 then [EscapeMeaning(t[1])] + Unescaped(t[2..])
    else [t[0]] + Unescaped(t[1..])
  }

  /** Reading back one escaped character gives that character, whatever follows. */
  lemma UnescapedChar(c: char, q: char, rest: string)
    requires q == '\'' || q == '"'
    ensures Unescaped(EscapedChar(c, q) + rest) == [c] + Unescaped(rest)
  {
    var e := EscapedChar(c, q);
    if |e| == 2 {
      assert (e + rest)[2..] == rest;
    } else {
      assert (e + rest)[1..] == rest;
    }
  }

  /** Escaping loses nothing: the literal's body reads back as the text. */
  lemma {:induction false} EscapedRoundTrip(s: string, q: char)
    requires q == '\'' || q == '"'
    ensures Unescaped(Escaped(s, q)) == s
    decreases |s|
  {
    if s != [] {
      EscapedRoundTrip(s[1..], q);
      UnescapedChar(s[0], q, Escaped(s[1..], q));
      assert [s[0]] + s[1..] == s;
    }
  }

  /** Every quote `q` in the escaped body is preceded by a backslash, so the literal ends at its closing quote. */
  lemma {:induction false} EscapedQuotes(s: string, q: char, i: nat)
    requires q != '\\' && i < |Escaped(s, q)| && Escaped(s, q)[i] == q
    ensures i > 0 && Escaped(s, q)[i - 1] == '\\'
    decreases |s|
  {
    var e := EscapedChar(s[0], q);
    var rest := Escaped(s[1..], q);
    assert Escaped(s, q) == e + rest;
    if i >= |e| {
      EscapedQuotes(s[1..], q, i - |e|);
      assert (e + rest)[i] == rest[i - |e|];
      assert (e + rest)[i - 1] == rest[i - 1 - |e|];
    }
  }

  /** One entry of `options`: the flag, a space and `str` of the value (None for an empty value), always one string. */
  function OldOption(flag: string, v: OptVal): string {
    match v
    case Scalar(x) => flag + " " + ValStr(x)
    case ListOf(xs) => flag + " " + ListRepr(xs)
    case NoValue => flag + " " + "None"
  }

  /** The option strings of an `options` mapping. */
  function OldOptions(opts: seq<(string, OptVal)>): seq<string>
    decreases |opts|
  {
    if opts == [] then [] else OldOptions(opts[..|opts| - 1]) + [OldOption(opts[|opts| - 1].0, opts[|opts| - 1].1)]
  }

  /**
   * The older rendering gives exactly one string per option, the flag and a
   * space followed by the value, where the newer one gives one string per
   * list element and the bare flag for None.
   */
  lemma OldOptionsOnePerEntry(opts: seq<(string, OptVal)>)
    ensures |OldOptions(opts)| == |opts|
    ensures forall i :: 0 <= i < |opts| ==> OldOptions(opts)[i] == OldOption(opts[i].0, opts[i].1)
    ensures forall i :: 0 <= i < |opts| ==> StartsWith(OldOptions(opts)[i], opts[i].0 + " ")
  {
    OldOptionsLength(opts);
    forall i | 0 <= i < |opts|
      ensures OldOptions(opts)[i] == OldOption(opts[i].0, opts[i].1)
      ensures StartsWith(OldOptions(opts)[i], opts[i].0 + " ")
    {
      OldOptionsAt(opts, i);
      OldOptionStarts(opts[i].0, opts[i].1);
    }
  }

  lemma {:induction false} OldOptionsLength(opts: seq<(string, OptVal)>)
    ensures |OldOptions(opts)| == |opts|
    decreases |opts|
  {
    if opts != [] {
      OldOptionsLength(opts[..|opts| - 1]);
    }
  }

  lemma {:induction false} OldOptionsAt(opts: seq<(string, OptVal)>, i: nat)
    requires i < |opts|
    ensures |OldOptions(opts)| == |opts| && OldOptions(opts)[i] == OldOption(opts[i].0, opts[i].1)
    decreases |opts|
  {
    OldOptionsLength(opts);
    var n := |opts| - 1;
    if i < n {
      OldOptionsAt(opts[..n], i);
      assert opts[..n][i] == opts[i];
    }
  }

  lemma OldOptionStarts(flag: string, v: OptVal)
    ensures StartsWith(OldOption(flag, v), flag + " ")
  {
    var o := OldOption(flag, v);
    assert o[..|flag + " "|] == flag + " ";
  }

  /**
   * Both renderings agree on a scalar that is not None; for None the older
   * one writes "flag None" where the newer one writes the bare flag, and a
   * list is one bracketed string instead of one string per element.
   */
  lemma OldOptionAgainstNew(flag: string, v: OptVal)
    ensures v.Scalar? && v.v != Null ==> OptionEntry(flag, v) == [OldOption(flag, v)]
    ensures v.Scalar? && v.v == Null ==> OptionEntry(flag, v) == [flag] && OldOption(flag, v) == flag + " " + "None"
    ensures v.NoValue? ==> OptionEntry(flag, v) == [flag] && OldOption(flag, v) == flag + " " + "None"
    ensures v.ListOf? ==> |OptionEntry(flag, v)| == |v.items| && OldOption(flag, v) == flag + " " + ListRepr(v.items)
  {
  }

  // ---------------------------------------------------------------------
  // parse_prog_info
  // ---------------------------------------------------------------------

  /** `progs` and `progs_job_parms` as parse_prog_info fills them. */
  datatype Parsed = Parsed(progs: seq<(string, seq<string>)>, jobParms: map<string, JobParams>)

  /**
   * The list an entry gets: its rendered options, `['']` for a mapping
   * without options or for 'default', and `[]` for anything else.
   */
  function OldArgs(v: StepVal): seq<string> {
    match v
    case Mapping(_, opts, _) => if opts.Some? then OldOptions(opts.value) else [""]
    case Literal(s) => if s == "default" then [""] else []
    case OtherValue => []
  }

  /**
   * One `(k, v)` of `workflow_sequence`: every entry is stored under its
   * own key; only a mapping records job parameters, 'default' when it has
   * none.
   */
  function OldEntry(p: Parsed, k: string, v: StepVal): Parsed {
    var progs := Store(p.progs, k, OldArgs(v));
    if v.Mapping? then Parsed(progs, p.jobParms[k := v.jobParams.UnwrapOr(DefaultParams)])
    else Parsed(progs, p.jobParms)
  }

  /** The loop over the entries of `workflow_sequence`, before the reversal. */
  function OldParse(m: seq<(string, StepVal)>, p: Parsed): Parsed
    decreases |m|
  {
    if m == [] then p else OldParse(m[1..], OldEntry(p, m[0].0, m[0].1))
  }

  /** The keys of a parsed YAML mapping are distinct. */
  predicate DistinctKeys(m: seq<(string, StepVal)>) {
    forall i, j :: 0 <= i < j < |m| ==> m[i].0 != m[j].0
  }

  /** The entries of a mapping as `progs` holds them: each key with its list. */
  function Entries(m: seq<(string, StepVal)>): (r: seq<(string, seq<string>)>)
    ensures |r| == |m|
    ensures forall i :: 0 <= i < |m| ==> r[i] == (m[i].0, OldArgs(m[i].1))
  {
    seq(|m|, i requires 0 <= i < |m| => (m[i].0, OldArgs(m[i].1)))
  }

  /** A mapping's decl of key `k` is a mapping entry. */
  predicate DeclaresMapping(m: seq<(string, StepVal)>, k: string) {
    Get(m, k).Some? && Get(m, k).value.Mapping?
  }

  lemma EntriesTail(m: seq<(string, StepVal)>)
    requires m != []
    ensures Entries(m) == [(m[0].0, OldArgs(m[0].1))] + Entries(m[1..])
  {
  }

  lemma DistinctTail(m: seq<(string, StepVal)>)
    requires m != [] && DistinctKeys(m)
    ensures DistinctKeys(m[1..])
    ensures Get(m[1..], m[0].0).None?
  {
    forall j | 0 <= j < |m| - 1
      ensures Keys(m[1..])[j] != m[0].0
    {
      assert m[1..][j] == m[j + 1];
    }
    GetKeys(m[1..], m[0].0);
  }

  /**
   * With distinct keys none of which is stored yet, every entry is added
   * once, in declaration order, under its own key with no round suffix.
   */
  lemma {:induction false} OldParseProgs(m: seq<(string, StepVal)>, p: Parsed)
    requires DistinctKeys(m)
    requires forall i :: 0 <= i < |m| ==> Get(p.progs, m[i].0).None?
    ensures OldParse(m, p).progs == p.progs + Entries(m)
    decreases |m|
  {
    if m == [] {
      assert p.progs + Entries(m) == p.progs;
    } else {
      var p1 := OldEntry(p, m[0].0, m[0].1);
      StoreNewKey(p.progs, m[0].0, OldArgs(m[0].1));
      DistinctTail(m);
      forall i | 0 <= i < |m[1..]| ensures Get(p1.progs, m[1..][i].0).None? {
        assert m[1..][i].0 == m[i + 1].0;
        StoreFacts(p.progs, m[0].0, OldArgs(m[0].1));
      }
      OldParseProgs(m[1..], p1);
      EntriesTail(m);
      AppendAssoc(p.progs, [(m[0].0, OldArgs(m[0].1))], Entries(m[1..]));
    }
  }

  /**
   * With distinct keys, a key declared as a mapping gets its job_params,
   * or 'default' when it has none; any other key, 'default' entries
   * included, keeps what `progs_job_parms` held before.
   */
  lemma {:induction false} OldParseJobParms(m: seq<(string, StepVal)>, p: Parsed, k: string)
    requires DistinctKeys(m)
    ensures DeclaresMapping(m, k) ==>
      k in OldParse(m, p).jobParms && OldParse(m, p).jobParms[k] == Get(m, k).value.jobParams.UnwrapOr(DefaultParams)
    ensures !DeclaresMapping(m, k) ==>
      (k in OldParse(m, p).jobParms <==> k in p.jobParms)
      && (k in p.jobParms ==> OldParse(m, p).jobParms[k] == p.jobParms[k])
    decreases |m|
  {
    if m != [] {
      var p1 := OldEntry(p, m[0].0, m[0].1);
      DistinctTail(m);
      OldParseJobParms(m[1..], p1, k);
    }
  }

  /**
   * As written, a step declared 'default' never gets a `progs_job_parms`
   * entry, although it is a step of `progs`.
   */
  lemma OldDefaultHasNoJobParms(m: seq<(string, StepVal)>, jp: map<string, JobParams>, k: string)
    requires DistinctKeys(m) && Get(m, k) == Some(Literal("default")) && k !in jp
    ensures var p := OldParse(m, Parsed([], jp));
      k in Keys(p.progs) && k !in p.jobParms
  {
    var p := OldParse(m, Parsed([], jp));
    OldParseJobParms(m, Parsed([], jp), k);
    OldParseProgs(m, Parsed([], jp));
    assert [] + Entries(m) == Entries(m);
    GetKeys(m, k);
    var j :| 0 <= j < |m| && Keys(m)[j] == k;
    assert p.progs[j].0 == k;
  }

  /** The entry the newer copy makes of 'default': DefaultParams is recorded for it as for a mapping without job_params. */
  function OldEntryFixed(p: Parsed, k: string, v: StepVal): Parsed {
    var r := OldEntry(p, k, v);
    if v == Literal("default") then Parsed(r.progs, r.jobParms[k := DefaultParams]) else r
  }

  function OldParseFixed(m: seq<(string, StepVal)>, p: Parsed): Parsed
    decreases |m|
  {
    if m == [] then p else OldParseFixed(m[1..], OldEntryFixed(p, m[0].0, m[0].1))
  }

  /**
   * Corrected, every key that becomes a real step (a mapping or 'default')
   * has job parameters, 'default' ones for 'default', and the lists in
   * `progs` are those of the code as written.
   */
  lemma {:induction false} OldParseFixedCovers(m: seq<(string, StepVal)>, p: Parsed, k: string)
    requires DistinctKeys(m)
    ensures OldParseFixed(m, p).progs == OldParse(m, p).progs
    ensures Get(m, k).Some? && Compiles(Get(m, k).value) ==> k in OldParseFixed(m, p).jobParms
    ensures Get(m, k) == Some(Literal("default")) ==> OldParseFixed(m, p).jobParms[k] == DefaultParams
    decreases |m|
  {
    if m != [] {
      DistinctTail(m);
      var p1 := OldEntry(p, m[0].0, m[0].1);
      var f1 := OldEntryFixed(p, m[0].0, m[0].1);
      OldParseFixedCovers(m[1..], f1, k);
      OldParseFixedProgs(m[1..], f1, p1);
      if m[0].0 == k && Compiles(m[0].1) {
        OldParseFixedKeeps(m[1..], f1, k);
      }
    }
  }

  /** The lists stored do not depend on the job parameters recorded. */
  lemma {:induction false} OldParseFixedProgs(m: seq<(string, StepVal)>, f: Parsed, p: Parsed)
    requires f.progs == p.progs
    ensures OldParseFixed(m, f).progs == OldParse(m, p).progs
    decreases |m|
  {
    if m != [] {
      OldParseFixedProgs(m[1..], OldEntryFixed(f, m[0].0, m[0].1), OldEntry(p, m[0].0, m[0].1));
    }
  }

  /** Later entries with other keys leave a key's job parameters as they are. */
  lemma {:induction false} OldParseFixedKeeps(m: seq<(string, StepVal)>, f: Parsed, k: string)
    requires Get(m, k).None? && k in f.jobParms
    ensures k in OldParseFixed(m, f).jobParms && OldParseFixed(m, f).jobParms[k] == f.jobParms[k]
    decreases |m|
  {
    if m != [] {
      OldParseFixedKeeps(m[1..], OldEntryFixed(f, m[0].0, m[0].1), k);
    }
  }

  // ---------------------------------------------------------------------
  // update_job_parms
  // ---------------------------------------------------------------------

  /**
   * `update_job_parms(key)`: a deep copy of base_kwargs, marked custom with
   * the key's parameters unless they are 'default'; a key without
   * parameters raises KeyError.
   */
  function OldUpdateJobParms(base: Kwargs, jps: map<string, JobParams>, key: string): (r: Result<Kwargs>)
    ensures r.Success? <==> key in jps
  {
    if key !in jps then Failure("KeyError: '" + key + "'") else Success(UpdateKw(base, jps[key]))
  }

  /**
   * base_kwargs are never changed, so nothing carries over between keys:
   * whatever keys were updated before, a key's kwargs are those the newer
   * code would give it as the only key, while the newer code keeps the last
   * custom parameters for a 'default' key after a custom one.
   */
  lemma OldUpdateNoCarryOver(base: Kwargs, jps: map<string, JobParams>, a: string, b: string)
    requires a in jps && b in jps
    ensures OldUpdateJobParms(base, jps, b) == Success(UpdateAll(base, [b], jps))
    ensures jps[a].CustomParams? && jps[b] == DefaultParams ==>
      && OldUpdateJobParms(base, jps, b) == Success(base)
      && UpdateAll(base, [a, b], jps) == base.(jobParmsType := Some("custom"), addJobParms := Some(jps[a].m))
  {
    assert [a, b][..1] == [a];
    assert [b][..0] == [];
    assert [a][..0] == [];
  }

  // ---------------------------------------------------------------------
  // chain_commands
  // ---------------------------------------------------------------------

  /** `prog_wrappers` of the older BaseWorkflow: twelve keys. */
  const OldRegistry: set<string> := {
    "feature_counts", "gsnap", "fastqc", "qualimap_rnaseq", "samtobam", "bamtomapped",
    "bamtounmapped", "samindex", "samsort", "bammarkduplicates2", "salmon", "htseq-count"}

  /**
   * The calls for one key of `progs`: gsnap's seven after update_job_parms,
   * or one call with base_kwargs and stdout work_dir/log_dir/<s>_<key>.log.
   * A key missing from `prog_wrappers` raises KeyError.
   */
  function OldKeyCalls(key: string, samp: string, args: seq<string>, jps: map<string, JobParams>, base: Kwargs, d: LogDirs): Result<seq<Call>> {
    if key == "gsnap" then
      var nk :- OldUpdateJobParms(base, jps, key);
      Success(AlignerCalls(key, samp, args, base, nk, d))
    else if key !in OldRegistry then Failure("KeyError: '" + key + "'")
    else Success([Call(key, key, args, Logged(base, PathJoin3(d.runWorkDir, d.runLogDir, samp + "_" + key + ".log")), false)])
  }

  /** The calls of one key of `progs`, given its options, or the exception it raises. */
  type KeyCaller = (string, seq<string>) -> Result<seq<Call>>

  /** OldKeyCalls for one sample, job parameters, base_kwargs and directories. */
  function KeyCallsFor(samp: string, jps: map<string, JobParams>, base: Kwargs, d: LogDirs): KeyCaller {
    (key: string, args: seq<string>) => OldKeyCalls(key, samp, args, jps, base, d)
  }

  /** The calls of the keys of `ps` in order, stopping at the first exception. */
  function CollectCalls(ps: seq<(string, seq<string>)>, kc: KeyCaller): Result<seq<Call>>
    decreases |ps|
  {
    if ps == [] then Success([])
    else
      var n := |ps| - 1;
      var before :- CollectCalls(ps[..n], kc);
      var cs :- kc(ps[n].0, ps[n].1);
      Success(before + cs)
  }

  /** `samp_progs` for one sample: the keys of `progs` in order, stopping at the first exception. */
  function OldSampleCalls(ps: seq<(string, seq<string>)>, samp: string, jps: map<string, JobParams>, base: Kwargs, d: LogDirs): Result<seq<Call>> {
    CollectCalls(ps, KeyCallsFor(samp, jps, base, d))
  }

  /** Collecting succeeds exactly when no key raises. */
  lemma {:induction false} CollectOk(ps: seq<(string, seq<string>)>, kc: KeyCaller)
    ensures CollectCalls(ps, kc).Success? <==> forall i :: 0 <= i < |ps| ==> kc(ps[i].0, ps[i].1).Success?
    decreases |ps|
  {
    if ps != [] {
      var n := |ps| - 1;
      CollectOk(ps[..n], kc);
      assert forall i :: 0 <= i < n ==> ps[..n][i] == ps[i];
    }
  }

  lemma CollectStep(ps: seq<(string, seq<string>)>, kc: KeyCaller, i: nat)
    requires i < |ps| && CollectCalls(ps[..i], kc).Success?
    ensures CollectCalls(ps[..i + 1], kc) ==
      match kc(ps[i].0, ps[i].1)
      case Failure(e) => Failure(e)
      case Success(cs) => Success(CollectCalls(ps[..i], kc).value + cs)
  {
    assert ps[..i + 1][..i] == ps[..i];
  }

  /** Once a key has raised, the later keys change nothing. */
  lemma {:induction false} CollectStops(ps: seq<(string, seq<string>)>, kc: KeyCaller, n: nat)
    requires n <= |ps| && CollectCalls(ps[..n], kc).Failure?
    ensures CollectCalls(ps, kc) == CollectCalls(ps[..n], kc)
    decreases |ps|
  {
    if n < |ps| {
      var m := |ps| - 1;
      assert ps[..m][..n] == ps[..n];
      CollectStops(ps[..m], kc, n);
    } else {
      assert ps[..n] == ps;
    }
  }

  /** A key that does not raise: gsnap with job parameters, or a registered key. */
  predicate OldKeyOk(key: string, jps: map<string, JobParams>) {
    if key == "gsnap" then key in jps else key in OldRegistry
  }

  /** The number of gsnap keys. */
  function GsnapCount(ps: seq<(string, seq<string>)>): nat
    decreases |ps|
  {
    if ps == [] then 0 else GsnapCount(ps[..|ps| - 1]) + (if ps[|ps| - 1].0 == "gsnap" then 1 else 0)
  }

  lemma OldKeyCallsFacts(key: string, samp: string, args: seq<string>, jps: map<string, JobParams>, base: Kwargs, d: LogDirs)
    ensures OldKeyCalls(key, samp, args, jps, base, d).Success? <==> OldKeyOk(key, jps)
    ensures OldKeyCalls(key, samp, args, jps, base, d).Success? ==>
      |OldKeyCalls(key, samp, args, jps, base, d).value| == if key == "gsnap" then 7 else 1
  {
  }

  /** A sample's calls succeed exactly when every key is fine. */
  lemma OldSampleCallsOk(ps: seq<(string, seq<string>)>, samp: string, jps: map<string, JobParams>, base: Kwargs, d: LogDirs)
    ensures OldSampleCalls(ps, samp, jps, base, d).Success? <==> forall i :: 0 <= i < |ps| ==> OldKeyOk(ps[i].0, jps)
  {
    CollectOk(ps, KeyCallsFor(samp, jps, base, d));
    forall i | 0 <= i < |ps| {
      OldKeyCallsFacts(ps[i].0, samp, ps[i].1, jps, base, d);
    }
  }

  /** When every gsnap key gives seven calls and every other key one, collecting gives one per key plus six per gsnap key. */
  lemma {:induction false} CollectCount(ps: seq<(string, seq<string>)>, kc: KeyCaller)
    requires forall k, a :: kc(k, a).Success? ==> |kc(k, a).value| == if k == "gsnap" then 7 else 1
    ensures CollectCalls(ps, kc).Success? ==> |CollectCalls(ps, kc).value| == |ps| + 6 * GsnapCount(ps)
    decreases |ps|
  {
    if ps != [] {
      CollectCount(ps[..|ps| - 1], kc);
    }
  }

  /**
   * A sample's calls succeed exactly when every key is fine, and then there
   * is one call per key plus six more per gsnap key.
   */
  lemma OldSampleCallsCount(ps: seq<(string, seq<string>)>, samp: string, jps: map<string, JobParams>, base: Kwargs, d: LogDirs)
    ensures OldSampleCalls(ps, samp, jps, base, d).Success? <==> forall i :: 0 <= i < |ps| ==> OldKeyOk(ps[i].0, jps)
    ensures OldSampleCalls(ps, samp, jps, base, d).Success? ==>
      |OldSampleCalls(ps, samp, jps, base, d).value| == |ps| + 6 * GsnapCount(ps)
  {
    OldSampleCallsOk(ps, samp, jps, base, d);
    var kc := KeyCallsFor(samp, jps, base, d);
    forall k, a ensures kc(k, a).Success? ==> |kc(k, a).value| == if k == "gsnap" then 7 else 1 {
      OldKeyCallsFacts(k, samp, a, jps, base, d);
    }
    CollectCount(ps, kc);
  }

  /** The kwargs of one call: base_kwargs with a stdout file, updated with gsnap's parameters for the two updated calls. */
  predicate OldCallKw(c: Call, base: Kwargs, jps: map<string, JobParams>) {
    && c.kw.stdout.Some?
    && (c.fromNew ==>
          (c.key == "samsort" || c.key == "gsnap") && "gsnap" in jps
          && c.kw == Logged(UpdateKw(base, jps["gsnap"]), c.kw.stdout.value))
    && (!c.fromNew ==> c.kw == Logged(base, c.kw.stdout.value))
  }

  lemma OldKeyCallsKw(key: string, samp: string, args: seq<string>, jps: map<string, JobParams>, base: Kwargs, d: LogDirs)
    requires OldKeyCalls(key, samp, args, jps, base, d).Success?
    ensures var cs := OldKeyCalls(key, samp, args, jps, base, d).value;
      forall i :: 0 <= i < |cs| ==> OldCallKw(cs[i], base, jps)
  {
    if key == "gsnap" {
      AlignerCallsKwargs(key, samp, args, base, UpdateKw(base, jps[key]), d);
      AlignerCallsOrder(key, samp, args, base, UpdateKw(base, jps[key]), d);
    }
  }

  /**
   * Every call of a sample gets base_kwargs with its stdout file, except
   * samsort and gsnap, which get base_kwargs updated with gsnap's own
   * parameters: no key's parameters reach another key.
   */
  lemma {:induction false} OldSampleCallsKwargs(ps: seq<(string, seq<string>)>, samp: string, jps: map<string, JobParams>, base: Kwargs, d: LogDirs)
    requires OldSampleCalls(ps, samp, jps, base, d).Success?
    ensures var cs := OldSampleCalls(ps, samp, jps, base, d).value;
      forall i :: 0 <= i < |cs| ==> OldCallKw(cs[i], base, jps)
    decreases |ps|
  {
    if ps != [] {
      var n := |ps| - 1;
      OldSampleCallsKwargs(ps[..n], samp, jps, base, d);
      OldKeyCallsKw(ps[n].0, samp, ps[n].1, jps, base, d);
    }
  }

  /** Whether a sample's calls raise does not depend on the sample, and the exception is the same. */
  lemma {:induction false} OldSampleCallsSampleFree(ps: seq<(string, seq<string>)>, s1: string, s2: string, jps: map<string, JobParams>, base: Kwargs, d: LogDirs)
    ensures OldSampleCalls(ps, s1, jps, base, d).Success? == OldSampleCalls(ps, s2, jps, base, d).Success?
    ensures OldSampleCalls(ps, s1, jps, base, d).Failure? ==>
      OldSampleCalls(ps, s1, jps, base, d).error == OldSampleCalls(ps, s2, jps, base, d).error
    decreases |ps|
  {
    if ps != [] {
      OldSampleCallsSampleFree(ps[..|ps| - 1], s1, s2, jps, base, d);
    }
  }

  /** One key's calls within a sample's: a raising key makes the whole sample raise. */
  lemma {:induction false} OldSampleCallsRaise(ps: seq<(string, seq<string>)>, samp: string, jps: map<string, JobParams>, base: Kwargs, d: LogDirs, i: nat)
    requires i < |ps| && !OldKeyOk(ps[i].0, jps)
    ensures OldSampleCalls(ps, samp, jps, base, d).Failure?
  {
    OldSampleCallsOk(ps, samp, jps, base, d);
  }

  /**
   * As written, declaring gsnap as 'default' makes every sample's
   * chain_commands raise KeyError in update_job_parms, since 'default'
   * entries get no job parameters.
   */
  lemma OldDefaultGsnapRaises(m: seq<(string, StepVal)>, jp: map<string, JobParams>, samp: string, base: Kwargs, d: LogDirs, key: string)
    requires key == "gsnap"
    requires DistinctKeys(m) && Get(m, key) == Some(Literal("default")) && key !in jp
    ensures var p := OldParse(m, Parsed([], jp));
      OldSampleCalls(Reverse(p.progs), samp, p.jobParms, base, d).Failure?
  {
    var p := OldParse(m, Parsed([], jp));
    OldDefaultHasNoJobParms(m, jp, key);
    var j :| 0 <= j < |p.progs| && Keys(p.progs)[j] == key;
    var r := Reverse(p.progs);
    assert r[|p.progs| - 1 - j].0 == key;
    OldSampleCallsRaise(r, samp, p.jobParms, base, d, |p.progs| - 1 - j);
  }

  /** Corrected, a gsnap declared 'default' gets base_kwargs unchanged from update_job_parms. */
  lemma OldDefaultGsnapFixed(m: seq<(string, StepVal)>, jp: map<string, JobParams>, base: Kwargs, key: string)
    requires key == "gsnap"
    requires DistinctKeys(m) && Get(m, key) == Some(Literal("default"))
    ensures OldUpdateJobParms(base, OldParseFixed(m, Parsed([], jp)).jobParms, key) == Success(base)
  {
    OldParseFixedCovers(m, Parsed([], jp), key);
  }

  /** The calls of one sample's TaskSequence, or the exception building it raises. */
  type SampleCaller = string -> Result<seq<Call>>

  /** OldSampleCalls for the keys of `progs`, their job parameters, base_kwargs and directories. */
  function SampleCallsFor(ps: seq<(string, seq<string>)>, jps: map<string, JobParams>, base: Kwargs, d: LogDirs): SampleCaller {
    (samp: string) => OldSampleCalls(ps, samp, jps, base, d)
  }

  /** One TaskSequence per sample in order, and the exception that stopped the run. */
  function ChainAll(ss: seq<(string, seq<string>)>, sc: SampleCaller): (seq<seq<Call>>, Option<string>)
    decreases |ss|
  {
    if ss == [] then ([], None)
    else
      var r := ChainAll(ss[..|ss| - 1], sc);
      if r.1.Some? then r
      else match sc(ss[|ss| - 1].0)
        case Failure(e) => (r.0, Some(e))
        case Success(cs) => (r.0 + [cs], None)
  }

  /**
   * `allTasks` as chain_commands extends it, sample after sample: the calls
   * of each sample's TaskSequence, and the exception that stopped it.
   */
  function OldChain(ss: seq<(string, seq<string>)>, ps: seq<(string, seq<string>)>, jps: map<string, JobParams>, base: Kwargs, d: LogDirs): (seq<seq<Call>>, Option<string>) {
    ChainAll(ss, SampleCallsFor(ps, jps, base, d))
  }

  /** Without an exception there is one TaskSequence per sample, holding that sample's calls. */
  lemma {:induction false} ChainAllTasks(ss: seq<(string, seq<string>)>, sc: SampleCaller)
    requires ChainAll(ss, sc).1.None?
    ensures |ChainAll(ss, sc).0| == |ss|
    ensures forall i :: 0 <= i < |ss| ==> sc(ss[i].0) == Success(ChainAll(ss, sc).0[i])
    decreases |ss|
  {
    if ss != [] {
      var n := |ss| - 1;
      ChainAllTasks(ss[..n], sc);
      assert forall i :: 0 <= i < n ==> ss[..n][i] == ss[i];
    }
  }

  /**
   * Without an exception chain_commands adds exactly one TaskSequence per
   * sample, holding that sample's calls.
   */
  lemma OldChainTasks(ss: seq<(string, seq<string>)>, ps: seq<(string, seq<string>)>, jps: map<string, JobParams>, base: Kwargs, d: LogDirs)
    requires OldChain(ss, ps, jps, base, d).1.None?
    ensures |OldChain(ss, ps, jps, base, d).0| == |ss|
    ensures forall i :: 0 <= i < |ss| ==> OldSampleCalls(ps, ss[i].0, jps, base, d) == Success(OldChain(ss, ps, jps, base, d).0[i])
  {
    ChainAllTasks(ss, SampleCallsFor(ps, jps, base, d));
  }

  /** The first sample raised nothing when a run over some samples raised nothing. */
  lemma ChainAllHead(ss: seq<(string, seq<string>)>, n: nat, sc: SampleCaller)
    requires n <= |ss| && ChainAll(ss[..n], sc).1.None?
    ensures n > 0 ==> sc(ss[0].0).Success?
  {
    if n > 0 {
      ChainAllTasks(ss[..n], sc);
      assert ss[..n][0] == ss[0];
    }
  }

  /** When whether a sample raises does not depend on the sample, a run adds all of its tasks or none. */
  lemma {:induction false} ChainAllAllOrNothing(ss: seq<(string, seq<string>)>, sc: SampleCaller)
    requires forall s1, s2 :: sc(s1).Success? == sc(s2).Success?
    requires ChainAll(ss, sc).1.Some?
    ensures ChainAll(ss, sc).0 == []
    ensures ss != [] && sc(ss[0].0).Failure?
    decreases |ss|
  {
    var n := |ss| - 1;
    var r := ChainAll(ss[..n], sc);
    if r.1.Some? {
      ChainAllAllOrNothing(ss[..n], sc);
      assert ss[..n][0] == ss[0];
    } else {
      assert sc(ss[n].0).Success? == sc(ss[0].0).Success?;
      ChainAllTasks(ss[..n], sc);
      ChainAllHead(ss, n, sc);
    }
  }

  /** chain_commands adds all of its tasks or none: an exception is raised on the first sample or not at all. */
  lemma OldChainAllOrNothing(ss: seq<(string, seq<string>)>, ps: seq<(string, seq<string>)>, jps: map<string, JobParams>, base: Kwargs, d: LogDirs)
    requires OldChain(ss, ps, jps, base, d).1.Some?
    ensures OldChain(ss, ps, jps, base, d).0 == []
    ensures ss != [] && OldSampleCalls(ps, ss[0].0, jps, base, d).Failure?
  {
    var sc := SampleCallsFor(ps, jps, base, d);
    forall s1, s2 ensures sc(s1).Success? == sc(s2).Success? {
      OldSampleCallsSampleFree(ps, s1, s2, jps, base, d);
    }
    ChainAllAllOrNothing(ss, sc);
  }

  lemma ChainAllStep(ss: seq<(string, seq<string>)>, sc: SampleCaller, i: nat)
    requires i < |ss|
    ensures var r := ChainAll(ss[..i], sc);
      ChainAll(ss[..i + 1], sc) ==
        if r.1.Some? then r
        else match sc(ss[i].0)
          case Failure(e) => (r.0, Some(e))
          case Success(cs) => (r.0 + [cs], None)
  {
    assert ss[..i + 1][..i] == ss[..i];
  }

  /** Once a sample has raised, the later samples change nothing. */
  lemma {:induction false} ChainAllStops(ss: seq<(string, seq<string>)>, sc: SampleCaller, n: nat)
    requires n <= |ss| && ChainAll(ss[..n], sc).1.Some?
    ensures ChainAll(ss, sc) == ChainAll(ss[..n], sc)
    decreases |ss|
  {
    if n < |ss| {
      var m := |ss| - 1;
      assert ss[..m][..n] == ss[..n];
      ChainAllStops(ss[..m], sc, n);
    } else {
      assert ss[..n] == ss;
    }
  }

  // ---------------------------------------------------------------------
  // download_sra_cmds
  // ---------------------------------------------------------------------

  /** What download_sra_cmds reads: run_parms' conda command, sra_dir and fastq_dir. */
  datatype SraDirs = SraDirs(conda: string, sraDir: string, fastqDir: string)

  /** The download and dump of one run, up to the ';' before the renaming. */
  function FetchParts(d: SraDirs, url: string, split: seq<string>): seq<string> {
    [d.conda, ";", "wget", "-P", d.sraDir, url, ";", "fastq-dump", "--gzip"] + split
      + [PathJoin(d.sraDir, BaseName(url)), "-O", d.fastqDir, ";"]
  }

  /** The file a dump is expected at: the run's file name with "sra" replaced. */
  function Dumped(d: SraDirs, url: string, suffix: string): string {
    PathJoin(d.fastqDir, Replace(BaseName(url), "sra", suffix))
  }

  /**
   * The words of the command for one run of a sample: a single run is
   * moved to the sample's file(s), each of several runs is appended to
   * them.
   */
  function SraParts(d: SraDirs, samp: string, url: string, paired: bool, multi: bool): seq<string> {
    var fd := d.fastqDir;
    var done := ["echo DONE:", url, ">> "];
    if !paired && !multi then
      FetchParts(d, url, []) + [" mv", Dumped(d, url, "fastq.gz"), PathJoin(fd, samp + ".fq.gz"), ";"] + done
    else if paired && !multi then
      FetchParts(d, url, ["--split-files"])
        + [" mv", Dumped(d, url, "_1.fastq.gz"), PathJoin(fd, samp + "_1.fq.gz"), ";",
           " mv", Dumped(d, url, "_2.fastq.gz"), PathJoin(fd, samp + "_2.fq.gz"), ";"] + done
    else if !paired then
      FetchParts(d, url, []) + [" cat", Dumped(d, url, "fastq.gz"), ">>", PathJoin(fd, samp + ".fq.gz"), ";"] + done
    else
      FetchParts(d, url, ["--split_files"])
        + ["cat", Dumped(d, url, "_1.fastq.gz"), ">>", PathJoin(fd, samp + "_1.fq.gz"), ";",
           "rm", Dumped(d, url, "_1.fastq.gz"), ";",
           "cat", Dumped(d, url, "_2.fastq.gz"), ">>", PathJoin(fd, samp + "_2.fq.gz"), ";",
           "rm", Dumped(d, url, "_2.fastq.gz"), ";"] + done
  }

  /** The shell commands of a list of runs, each run's words joined by spaces. */
  function Texts(ws: seq<seq<string>>): seq<string>
    decreases |ws|
  {
    if ws == [] then []
    else Texts(ws[..|ws| - 1]) + [Join(" ", ws[|ws| - 1])]
  }

  /** One command per run. */
  lemma {:induction false} TextsLength(ws: seq<seq<string>>)
    ensures |Texts(ws)| == |ws|
    decreases |ws|
  {
    if ws != [] {
      TextsLength(ws[..|ws| - 1]);
    }
  }

  /** The k-th command is the k-th run's words joined by spaces. */
  lemma {:induction false} TextsAt(ws: seq<seq<string>>, k: nat)
    requires k < |ws|
    ensures |Texts(ws)| == |ws| && Texts(ws)[k] == Join(" ", ws[k])
    decreases |ws|
  {
    TextsLength(ws);
    var n := |ws| - 1;
    if k < n {
      TextsAt(ws[..n], k);
      assert ws[..n][k] == ws[k];
    }
  }

  /** The commands of two lists of runs, one after the other, are the commands of the joined list. */
  lemma {:induction false} TextsAppend(a: seq<seq<string>>, b: seq<seq<string>>)
    ensures Texts(a + b) == Texts(a) + Texts(b)
    decreases |b|
  {
    if b == [] {
      assert a + b == a;
    } else {
      var n := |b| - 1;
      assert (a + b)[..|a + b| - 1] == a + b[..n];
      TextsAppend(a, b[..n]);
    }
  }

  /** The words of the commands of one sample's runs, in order. */
  function RunWords(d: SraDirs, samp: string, files: seq<string>, paired: bool): seq<seq<string>> {
    seq(|files|, k requires 0 <= k < |files| => SraParts(d, samp, files[k], paired, |files| >= 2))
  }

  /**
   * One sample: its work list is reset; no run at all raises on
   * `fileName[0]`; otherwise one command per run and the sample's work
   * files.
   */
  function OldSraSample(d: SraDirs, samp: string, files: seq<string>, paired: bool): Result<(seq<seq<string>>, seq<string>)> {
    if files == [] then Failure("IndexError: list index out of range")
    else Success((RunWords(d, samp, files, paired), SraNames(d.fastqDir, samp, paired)))
  }

  /** download_sra_cmds as it goes: `sample_fastq_work`, the words of the commands added, and the exception that stopped it. */
  datatype Downloading = Downloading(work: seq<(string, seq<string>)>, runs: seq<seq<string>>, error: Option<string>)

  function OldSraAll(ss: seq<(string, seq<string>)>, d: SraDirs, paired: bool, w: seq<(string, seq<string>)>): Downloading
    decreases |ss|
  {
    if ss == [] then Downloading(w, [], None)
    else
      var r := OldSraAll(ss[..|ss| - 1], d, paired, w);
      var samp := ss[|ss| - 1].0;
      if r.error.Some? then r
      else match OldSraSample(d, samp, ss[|ss| - 1].1, paired)
        case Failure(e) => Downloading(Store(r.work, samp, []), r.runs, Some(e))
        case Success(x) => Downloading(Store(r.work, samp, x.1), r.runs + x.0, None)
  }

  lemma OldSraAllStep(ss: seq<(string, seq<string>)>, d: SraDirs, paired: bool, w: seq<(string, seq<string>)>, i: nat)
    requires i < |ss|
    ensures var r := OldSraAll(ss[..i], d, paired, w);
      OldSraAll(ss[..i + 1], d, paired, w) ==
        if r.error.Some? then r
        else match OldSraSample(d, ss[i].0, ss[i].1, paired)
          case Failure(e) => Downloading(Store(r.work, ss[i].0, []), r.runs, Some(e))
          case Success(x) => Downloading(Store(r.work, ss[i].0, x.1), r.runs + x.0, None)
  {
    assert ss[..i + 1][..i] == ss[..i];
  }

  lemma OldSraAllKeepsError(ss: seq<(string, seq<string>)>, d: SraDirs, paired: bool, w: seq<(string, seq<string>)>)
    requires ss != [] && OldSraAll(ss[..|ss| - 1], d, paired, w).error.Some?
    ensures OldSraAll(ss, d, paired, w) == OldSraAll(ss[..|ss| - 1], d, paired, w)
  {
  }

  lemma {:induction false} OldSraAllStops(ss: seq<(string, seq<string>)>, d: SraDirs, paired: bool, w: seq<(string, seq<string>)>, n: nat)
    requires n <= |ss| && OldSraAll(ss[..n], d, paired, w).error.Some?
    ensures OldSraAll(ss, d, paired, w) == OldSraAll(ss[..n], d, paired, w)
    decreases |ss|
  {
    if n < |ss| {
      var m := |ss| - 1;
      assert ss[..m][..n] == ss[..n];
      OldSraAllStops(ss[..m], d, paired, w, n);
      OldSraAllKeepsError(ss, d, paired, w);
    } else {
      assert ss[..n] == ss;
    }
  }

  /**
   * Each sample gets one command per run and the work files <s>.fq.gz, or
   * <s>_1.fq.gz and <s>_2.fq.gz when paired, whatever the number of runs;
   * the k-th command fetches the k-th run.
   */
  lemma OldSraSampleFacts(d: SraDirs, samp: string, files: seq<string>, paired: bool)
    ensures OldSraSample(d, samp, files, paired).Success? <==> files != []
    ensures OldSraSample(d, samp, files, paired).Success? ==>
      var (fs, names) := OldSraSample(d, samp, files, paired).value;
      && names == SraNames(d.fastqDir, samp, paired)
      && |names| == (if paired then 2 else 1)
      && |fs| == |files|
      && forall k :: 0 <= k < |files| ==> fs[k] == SraParts(d, samp, files[k], paired, |files| >= 2)
  {
  }

  /** Every run's command downloads that run into the SRA directory first. */
  lemma SraCmdDownloads(d: SraDirs, samp: string, url: string, paired: bool, multi: bool)
    ensures SraParts(d, samp, url, paired, multi)[2..6] == ["wget", "-P", d.sraDir, url]
  {
  }

  /**
   * The older download records the same work files, and stops at the same
   * sample, as the newer convert_sra_to_fastq_cmds with `paired_end` set.
   */
  lemma {:induction false} OldSraAgreesWithConvert(ss: seq<(string, seq<string>)>, d: SraDirs, paired: bool, w: seq<(string, seq<string>)>)
    ensures OldSraAll(ss, d, paired, w).work == SraAll(ss, d.fastqDir, Some(paired), w).0
    ensures OldSraAll(ss, d, paired, w).error.Some? <==> SraAll(ss, d.fastqDir, Some(paired), w).1.Some?
    decreases |ss|
  {
    if ss != [] {
      OldSraAgreesWithConvert(ss[..|ss| - 1], d, paired, w);
    }
  }

  /** `acc + ".sra"` with "sra" replaced, for a run accession holding no 's'. */
  lemma {:induction false} ReplaceSraSuffix(acc: string, rep: string)
    requires 's' !in acc
    ensures Replace(acc + ".sra", "sra", rep) == acc + "." + rep
    decreases |acc|
  {
    if acc == [] {
      assert acc + ".sra" == ".sra";
      assert ".sra"[1..] == "sra";
      assert Replace("sra", "sra", rep) == rep + Replace("", "sra", rep);
    } else {
      assert (acc + ".sra")[1..] == acc[1..] + ".sra";
      assert !StartsWith(acc + ".sra", "sra") by {
        assert (acc + ".sra")[0] == acc[0];
      }
      ReplaceSraSuffix(acc[1..], rep);
      assert [acc[0]] + (acc[1..] + "." + rep) == acc + "." + rep;
    }
  }

  /** `acc + ".sra"` with ".sra" replaced, for a run accession holding no '.'. */
  lemma {:induction false} ReplaceDotSraSuffix(acc: string, rep: string)
    requires '.' !in acc
    ensures Replace(acc + ".sra", ".sra", rep) == acc + rep
    decreases |acc|
  {
    if acc == [] {
      assert acc + ".sra" == ".sra";
      assert Replace(".sra", ".sra", rep) == rep + Replace("", ".sra", rep);
    } else {
      assert (acc + ".sra")[1..] == acc[1..] + ".sra";
      assert !StartsWith(acc + ".sra", ".sra") by {
        assert (acc + ".sra")[0] == acc[0];
      }
      ReplaceDotSraSuffix(acc[1..], rep);
      assert [acc[0]] + (acc[1..] + rep) == acc + rep;
    }
  }

  /**
   * As written, a paired-end run <acc>.sra is expected as <acc>._1.fastq.gz
   * and <acc>._2.fastq.gz, where fastq-dump --split-files writes
   * <acc>_1.fastq.gz and <acc>_2.fastq.gz; with several runs the split
   * flag is spelled --split_files.
   */
  lemma PairedDumpAsWritten(d: SraDirs, samp: string, url: string, acc: string, multi: bool)
    requires BaseName(url) == acc + ".sra" && 's' !in acc
    ensures var p := SraParts(d, samp, url, true, multi);
      && p[9] == (if multi then "--split_files" else "--split-files")
      && p[15] == PathJoin(d.fastqDir, acc + "." + "_1.fastq.gz")
  {
    ReplaceSraSuffix(acc, "_1.fastq.gz");
    var split := if multi then ["--split_files"] else ["--split-files"];
    var f := FetchParts(d, url, split);
    var fd := d.fastqDir;
    var done := ["echo DONE:", url, ">> "];
    var one := Dumped(d, url, "_1.fastq.gz");
    var two := Dumped(d, url, "_2.fastq.gz");
    FetchPartsSplit(d, url, split);
    if multi {
      var x := ["cat", one, ">>", PathJoin(fd, samp + "_1.fq.gz"), ";", "rm", one, ";",
                "cat", two, ">>", PathJoin(fd, samp + "_2.fq.gz"), ";", "rm", two, ";"];
      assert SraParts(d, samp, url, true, multi) == f + x + done;
      PartsAt(f, x, done, 9);
      PartsAt(f, x, done, 15);
    } else {
      var x := [" mv", one, PathJoin(fd, samp + "_1.fq.gz"), ";", " mv", two, PathJoin(fd, samp + "_2.fq.gz"), ";"];
      assert SraParts(d, samp, url, true, multi) == f + x + done;
      PartsAt(f, x, done, 9);
      PartsAt(f, x, done, 15);
    }
  }

  /** The download words hold 13 words besides the split flags, which come tenth. */
  lemma FetchPartsSplit(d: SraDirs, url: string, split: seq<string>)
    ensures |FetchParts(d, url, split)| == 13 + |split|
    ensures |split| == 1 ==> FetchParts(d, url, split)[9] == split[0]
  {
  }

  /** Indexing a concatenation of three sequences. */
  lemma PartsAt<T>(a: seq<T>, b: seq<T>, c: seq<T>, i: nat)
    requires i < |a| + |b|
    ensures (a + b + c)[i] == if i < |a| then a[i] else b[i - |a|]
  {
  }

  /** The words of the paired-end command of the newer copy: ".sra" replaced, and --split-files for every run count. */
  function PairedPartsFixed(d: SraDirs, samp: string, url: string, multi: bool): seq<string> {
    var fd := d.fastqDir;
    var n := BaseName(url);
    var one := PathJoin(fd, Replace(n, ".sra", "_1.fastq.gz"));
    var two := PathJoin(fd, Replace(n, ".sra", "_2.fastq.gz"));
    var done := ["echo DONE:", url, ">> "];
    if !multi then
      FetchParts(d, url, ["--split-files"])
        + [" mv", one, PathJoin(fd, samp + "_1.fq.gz"), ";", " mv", two, PathJoin(fd, samp + "_2.fq.gz"), ";"] + done
    else
      FetchParts(d, url, ["--split-files"])
        + ["cat", one, ">>", PathJoin(fd, samp + "_1.fq.gz"), ";", "rm", one, ";",
           "cat", two, ">>", PathJoin(fd, samp + "_2.fq.gz"), ";", "rm", two, ";"] + done
  }

  /**
   * Corrected, both halves of a run <acc>.sra are read from the files
   * fastq-dump --split-files writes, and the flag is the same for any
   * number of runs.
   */
  lemma PairedDumpFixed(d: SraDirs, samp: string, url: string, acc: string, multi: bool)
    requires BaseName(url) == acc + ".sra" && '.' !in acc
    ensures var p := PairedPartsFixed(d, samp, url, multi);
      && p[9] == "--split-files"
      && p[15] == PathJoin(d.fastqDir, acc + "_1.fastq.gz")
      && p[if multi then 23 else 19] == PathJoin(d.fastqDir, acc + "_2.fastq.gz")
  {
    ReplaceDotSraSuffix(acc, "_1.fastq.gz");
    ReplaceDotSraSuffix(acc, "_2.fastq.gz");
  }

  // ---------------------------------------------------------------------
  // BaseTask.setup
  // ---------------------------------------------------------------------

  /** The older job script: the header, the conda command, the srun line and the DONE marker, with no banners. */
  function OldJobScript(conda: string, run: string, target: string): string {
    ScriptHead + conda + "\n" + "srun " + run + "\n" + DoneMarker + target
  }

  function OldLocalJobParms(j: JobInput, name: string): map<string, Val>
    requires j.conda.Some? && j.run.Some?
  {
    j.jobParms["workdir" := Text(j.cwd)]
              ["command" := Text(OldJobScript(j.conda.value, j.run.value, j.target))]
              ["out" := Text(PathJoin(j.logDir, name + "_mysagajob.stdout"))]
              ["error" := Text(PathJoin(j.logDir, name + "_mysagajob.stderr"))]
  }

  /** The older `setup` on a decoded wrapper, with the same exceptions as the newer one. */
  function OldJobSetup(j: JobInput): Result<(map<string, Val>, string)> {
    if j.conda.None? || j.run.None? then
      Failure("TypeError: cannot concatenate 'str' and 'NoneType' objects")
    else
      var name := JobName(j.input, j.name);
      SagaTarget(OldLocalJobParms(j, name), name, j)
  }

  /**
   * The two versions of `setup` fail on the same wrappers with the same
   * exception, and otherwise give the same task name and the same job
   * parameters except for the script.
   */
  lemma OldJobSetupAgrees(j: JobInput)
    ensures OldJobSetup(j).Success? <==> JobSetup(j).Success?
    ensures OldJobSetup(j).Failure? ==> OldJobSetup(j).error == JobSetup(j).error
    ensures OldJobSetup(j).Success? ==>
      && OldJobSetup(j).value.1 == JobSetup(j).value.1
      && OldJobSetup(j).value.0 == JobSetup(j).value.0["command" := Text(OldJobScript(j.conda.value, j.run.value, j.target))]
  {
    if j.conda.Some? && j.run.Some? {
      var name := JobName(j.input, j.name);
      var x := Text(OldJobScript(j.conda.value, j.run.value, j.target));
      var w := j.jobParms["workdir" := Text(j.cwd)];
      var out := Text(PathJoin(j.logDir, name + "_mysagajob.stdout"));
      var err := Text(PathJoin(j.logDir, name + "_mysagajob.stderr"));
      var y := Text(JobScript(j.conda.value, j.run.value, j.target));
      var n := LocalJobParms(j, name);
      UpdatesCommute(w["command" := y], "command", x, "out", out, "error", err);
      UpdateTwice(w, "command", y, x);
      assert OldLocalJobParms(j, name) == n["command" := x];
      SagaTargetCommand(n, x, name, j);
    }
  }

  /** Replacing the script changes nothing in the host-dependent part but the script. */
  lemma SagaTargetCommand(n: map<string, Val>, x: Val, name: string, j: JobInput)
    ensures SagaTarget(n["command" := x], name, j).Success? <==> SagaTarget(n, name, j).Success?
    ensures SagaTarget(n["command" := x], name, j).Failure? ==> SagaTarget(n["command" := x], name, j).error == SagaTarget(n, name, j).error
    ensures SagaTarget(n["command" := x], name, j).Success? ==>
      && SagaTarget(n["command" := x], name, j).value.1 == name
      && SagaTarget(n["command" := x], name, j).value.0 == SagaTarget(n, name, j).value.0["command" := x]
  {
    if "saga_host" in n && n["saga_host"] != Text("localhost") && j.localTarget.Some? {
      UpdatesCommute(n, "command", x, "outfilesource", Text(RemoteHost + j.target),
        "outfiletarget", Text(DirName(j.localTarget.value) + "/"));
    }
  }

  /** An update of a key the next two updates do not touch can be made last. */
  lemma UpdatesCommute(m: map<string, Val>, k: string, v: Val, k1: string, v1: Val, k2: string, v2: Val)
    requires k != k1 && k != k2
    ensures m[k := v][k1 := v1][k2 := v2] == m[k1 := v1][k2 := v2][k := v]
  {
  }

  /** A second update of the same key overrides the first. */
  lemma UpdateTwice(m: map<string, Val>, k: string, v1: Val, v2: Val)
    ensures m[k := v1][k := v2] == m[k := v2]
  {
  }

  /** The older script is the newer one without the PATH and Java banners. */
  lemma OldJobScriptDropsBanners(conda: string, run: string, target: string)
    ensures var head := ScriptHead + conda + "\n";
      var tail := "srun " + run + "\n" + DoneMarker + target;
      && OldJobScript(conda, run, target) == head + tail
      && JobScript(conda, run, target) == head + (PathBanner + JavaBanner) + tail
  {
    Regroup(ScriptHead + conda + "\n", [], "srun ", run, "\n", DoneMarker, target);
    Regroup(ScriptHead + conda + "\n", PathBanner + JavaBanner, "srun ", run, "\n", DoneMarker, target);
    assert ScriptHead + conda + "\n" + PathBanner + JavaBanner == ScriptHead + conda + "\n" + (PathBanner + JavaBanner);
  }

  /** Concatenation regrouped: a head, a middle, and a tail of five parts. */
  lemma Regroup(h: string, m: string, a: string, b: string, c: string, d: string, e: string)
    ensures h + m + a + b + c + d + e == h + m + (a + b + c + d + e)
  {
  }

  // ---------------------------------------------------------------------
  // The workflow object
  // ---------------------------------------------------------------------

  class OldRnaSeqFlow {
    /** `base_kwargs`, as set_base_kwargs leaves them. */
    const baseKw: Kwargs
    /** The log directories chain_commands writes stdout files to. */
    const dirs: LogDirs
    const sra: SraDirs
    const pairedEnd: bool
    const sampleFastq: seq<(string, seq<string>)>
    var sampleFastqWork: seq<(string, seq<string>)>
    var progs: seq<(string, seq<string>)>
    var progsJobParms: map<string, JobParams>
    /** `allTasks`: the calls behind each TaskSequence appended. */
    var allTasks: seq<seq<Call>>

    constructor (base: Kwargs, d: LogDirs, s: SraDirs, paired: bool, samples: seq<(string, seq<string>)>)
      ensures baseKw == base && dirs == d && sra == s && pairedEnd == paired && sampleFastq == samples
      ensures sampleFastqWork == [] && progs == [] && progsJobParms == map[] && allTasks == []
    {
      baseKw := base;
      dirs := d;
      sra := s;
      pairedEnd := paired;
      sampleFastq := samples;
      sampleFastqWork := [];
      progs := [];
      progsJobParms := map[];
      allTasks := [];
    }

    /** `parse_prog_info` on the mapping `workflow_sequence`: every entry in order, then `progs` reversed. */
    method ParseProgInfo(m: seq<(string, StepVal)>)
      modifies this`progs, this`progsJobParms
      ensures var p := OldParse(m, Parsed(old(progs), old(progsJobParms)));
        progs == Reverse(p.progs) && progsJobParms == p.jobParms
    {
      ghost var goal := OldParse(m, Parsed(progs, progsJobParms));
      var i := 0;
      while i < |m|
        invariant 0 <= i <= |m|
        invariant OldParse(m[i..], Parsed(progs, progsJobParms)) == goal
      {
        assert m[i..][1..] == m[i + 1..];
        AddStep(m[i].0, m[i].1);
        i := i + 1;
      }
      progs := Reverse(progs);
    }

    /** The body of the loop: the key's list, filled option by option, and its job parameters. */
    method AddStep(k: string, v: StepVal)
      modifies this`progs, this`progsJobParms
      ensures Parsed(progs, progsJobParms) == OldEntry(Parsed(old(progs), old(progsJobParms)), k, v)
    {
      var l: seq<string> := [];
      if v.Mapping? {
        if v.options.Some? {
          var opts := v.options.value;
          var j := 0;
          while j < |opts|
            invariant 0 <= j <= |opts|
            invariant l == OldOptions(opts[..j])
          {
            assert opts[..j + 1][..j] == opts[..j];
            l := l + [OldOption(opts[j].0, opts[j].1)];
            j := j + 1;
          }
          assert opts[..|opts|] == opts;
        } else {
          l := [""];
        }
        progsJobParms := progsJobParms[k := v.jobParams.UnwrapOr(DefaultParams)];
      } else if v == Literal("default") {
        l := [""];
      }
      ghost var before := progs;
      progs := Store(progs, k, []);
      progs := Store(progs, k, l);
      StoreTwice(before, k, [], l);
    }

    /** `update_job_parms(key)`: the copy of base_kwargs it returns, base_kwargs themselves untouched. */
    method UpdateJobParms(key: string) returns (r: Result<Kwargs>)
      ensures r == OldUpdateJobParms(baseKw, progsJobParms, key)
    {
      if key !in progsJobParms {
        return Failure("KeyError: '" + key + "'");
      }
      var nk := baseKw;
      if progsJobParms[key] != DefaultParams {
        nk := nk.(jobParmsType := Some("custom"), addJobParms := Some(progsJobParms[key].m));
      }
      r := Success(nk);
    }

    /** One key of `progs` for one sample. */
    method KeyCalls(key: string, args: seq<string>, samp: string) returns (r: Result<seq<Call>>)
      ensures r == OldKeyCalls(key, samp, args, progsJobParms, baseKw, dirs)
    {
      if key == "gsnap" {
        var nk := UpdateJobParms(key);
        if nk.Failure? {
          return Failure(nk.error);
        }
        r := Success(AlignerCalls(key, samp, args, baseKw, nk.value, dirs));
      } else if key !in OldRegistry {
        r := Failure("KeyError: '" + key + "'");
      } else {
        var out := PathJoin3(dirs.runWorkDir, dirs.runLogDir, samp + "_" + key + ".log");
        r := Success([Call(key, key, args, Logged(baseKw, out), false)]);
      }
    }

    /** `samp_progs` of one sample: the keys of `progs` in order. */
    method SampleCalls(samp: string) returns (r: Result<seq<Call>>)
      ensures r == OldSampleCalls(progs, samp, progsJobParms, baseKw, dirs)
    {
      var sampProgs: seq<Call> := [];
      var i := 0;
      while i < |progs|
        invariant 0 <= i <= |progs|
        invariant OldSampleCalls(progs[..i], samp, progsJobParms, baseKw, dirs) == Success(sampProgs)
      {
        CollectStep(progs, KeyCallsFor(samp, progsJobParms, baseKw, dirs), i);
        var cs := KeyCalls(progs[i].0, progs[i].1, samp);
        if cs.Failure? {
          CollectStops(progs, KeyCallsFor(samp, progsJobParms, baseKw, dirs), i + 1);
          return Failure(cs.error);
        }
        sampProgs := sampProgs + cs.value;
        i := i + 1;
      }
      assert progs[..|progs|] == progs;
      r := Success(sampProgs);
    }

    /** `chain_commands`: one TaskSequence per sample of `sample_fastq_work`, up to the first exception. */
    method ChainCommands() returns (r: Result<()>)
      modifies this`allTasks
      ensures var (ts, e) := OldChain(sampleFastqWork, progs, progsJobParms, baseKw, dirs);
        && allTasks == old(allTasks) + ts
        && (r.Success? <==> e.None?)
        && (r.Failure? ==> e == Some(r.error))
    {
      var ss := sampleFastqWork;
      var i := 0;
      while i < |ss|
        invariant 0 <= i <= |ss|
        invariant var (ts, e) := OldChain(ss[..i], progs, progsJobParms, baseKw, dirs);
          e.None? && allTasks == old(allTasks) + ts
      {
        ChainAllStep(ss, SampleCallsFor(progs, progsJobParms, baseKw, dirs), i);
        var cs := SampleCalls(ss[i].0);
        if cs.Failure? {
          ChainAllStops(ss, SampleCallsFor(progs, progsJobParms, baseKw, dirs), i + 1);
          return Failure(cs.error);
        }
        ghost var before := allTasks;
        allTasks := allTasks + [cs.value];
        assert allTasks == old(allTasks) + (OldChain(ss[..i], progs, progsJobParms, baseKw, dirs).0 + [cs.value]);
        i := i + 1;
      }
      assert ss[..|ss|] == ss;
      r := Success(());
    }

    /** `download_sra_cmds` up to the submission: `sample_fastq_work` and the commands, sample after sample. */
    method DownloadSraCmds() returns (cmds: seq<string>, r: Result<()>)
      modifies this`sampleFastqWork
      ensures var dl := OldSraAll(sampleFastq, sra, pairedEnd, old(sampleFastqWork));
        && sampleFastqWork == dl.work && cmds == Texts(dl.runs)
        && (r.Success? <==> dl.error.None?)
        && (r.Failure? ==> dl.error == Some(r.error))
    {
      var w;
      w, cmds, r := DownloadAll(sampleFastq, sra, pairedEnd, sampleFastqWork);
      sampleFastqWork := w;
    }
  }

  /** The loop of download_sra_cmds on the dictionary `w` of work files. */
  method DownloadAll(ss: seq<(string, seq<string>)>, d: SraDirs, paired: bool, w: seq<(string, seq<string>)>)
    returns (w': seq<(string, seq<string>)>, cmds: seq<string>, r: Result<()>)
    ensures var dl := OldSraAll(ss, d, paired, w);
      && w' == dl.work && cmds == Texts(dl.runs)
      && (r.Success? <==> dl.error.None?)
      && (r.Failure? ==> dl.error == Some(r.error))
  {
    w' := w;
    cmds := [];
    ghost var ws: seq<seq<string>> := [];
    var i := 0;
    while i < |ss|
      invariant 0 <= i <= |ss|
      invariant OldSraAll(ss[..i], d, paired, w) == Downloading(w', ws, None)
      invariant cmds == Texts(ws)
    {
      OldSraAllStep(ss, d, paired, w, i);
      var samp := ss[i].0;
      var files := ss[i].1;
      ghost var before := w';
      w' := Store(w', samp, []);
      if files == [] {
        OldSraAllStops(ss, d, paired, w, i + 1);
        assert ss[..|ss|] == ss;
        return w', cmds, Failure("IndexError: list index out of range");
      }
      var sc := SampleDownloads(d, samp, files, paired);
      TextsAppend(ws, RunWords(d, samp, files, paired));
      cmds := cmds + sc;
      ws := ws + RunWords(d, samp, files, paired);
      w' := Store(w', samp, SraNames(d.fastqDir, samp, paired));
      StoreTwice(before, samp, [], SraNames(d.fastqDir, samp, paired));
      i := i + 1;
    }
    assert ss[..|ss|] == ss;
    r := Success(());
  }

  /** The commands of one sample: one per run, in order. */
  method SampleDownloads(d: SraDirs, samp: string, files: seq<string>, paired: bool) returns (sc: seq<string>)
    ensures sc == Texts(RunWords(d, samp, files, paired))
  {
    ghost var ws := RunWords(d, samp, files, paired);
    var multi := |files| >= 2;
    sc := [];
    var j := 0;
    while j < |files|
      invariant 0 <= j <= |files|
      invariant sc == Texts(ws[..j])
    {
      assert ws[..j + 1][..j] == ws[..j];
      sc := sc + [Join(" ", SraParts(d, samp, files[j], paired, multi))];
      j := j + 1;
    }
    assert ws[..|files|] == ws;
  }
}
