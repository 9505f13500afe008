// The SRA access helper of bioutils.access_sra: the FTP location of a run,
// the mapping from already-parsed experiment records to samples, files and
// records, and the line format of the records file.
module Sra {
  import opened Wrappers
  import opened PyStr
  import opened Dicts

  /** A value of a parsed record: a text, a list of texts, or None. */
  datatype Field = Str(s: string) | Strs(xs: seq<string>) | NoneField

  /** A parsed record (a dict): its entries in iteration order. */
  type Record = seq<(string, Field)>

  // ---------------------------------------------------------------------
  // ftp_url

  const FtpPrefix := "ftp://ftp-trace.ncbi.nlm.nih.gov/sra/sra-instant/reads/ByRun/sra/"

  /** `s[:n]` */
  function Take(s: string, n: nat): (r: string)
    ensures |r| == (if |s| < n then |s| else n) && r == s[..|r|]
  {
    if |s| <= n then s else s[..n]
  }

  /** `ftp_url(id)`: the run's file under its three- and six-character directories. */
  function FtpUrl(id: string): string {
    FtpPrefix + Take(id, 3) + "/" + Take(id, 6) + "/" + id + "/" + id + ".sra"
  }

  /** The text after the last `c` of `s` (all of `s` when it has none). */
  function LastSegment(s: string, c: char): (r: string)
    ensures c !in r
    ensures |r| <= |s| && r == s[|s| - |r|..]
    ensures |r| < |s| ==> s[|s| - |r| - 1] == c
    decreases |s|
  {
    if s == [] || s[|s| - 1] == c then []
    else
      var pre := LastSegment(s[..|s| - 1], c);
      assert s[..|s| - 1][|s| - 1 - |pre|..] + [s[|s| - 1]] == s[|s| - |pre| - 1..];
      pre + [s[|s| - 1]]
  }

  lemma {:induction false} LastSegmentAfter(a: string, b: string, c: char)
    requires c !in b
    ensures LastSegment(a + [c] + b, c) == b
    decreases |b|
  {
    var s := a + [c] + b;
    if b != [] {
      var n := |b| - 1;
      assert s[..|s| - 1] == a + [c] + b[..n];
      LastSegmentAfter(a, b[..n], c);
      assert b[..n] + [b[n]] == b;
    }
  }

  /** The run accession named by a download URL: its last path segment without ".sra". */
  function RunOf(url: string): string {
    var seg := LastSegment(url, '/');
    if EndsWith(seg, ".sra") then seg[..|seg| - 4] else seg
  }

  /** A URL built by `ftp_url` names its run again. */
  lemma FtpUrlRun(id: string)
    requires '/' !in id
    ensures RunOf(FtpUrl(id)) == id
  {
    var dirs := FtpPrefix + Take(id, 3) + "/" + Take(id, 6) + "/" + id;
    var file := id + ".sra";
    assert FtpUrl(id) == dirs + ['/'] + file;
    assert '/' !in file;
    LastSegmentAfter(dirs, file, '/');
    assert file[|file| - 4..] == ".sra";
    assert file[..|file| - 4] == id;
  }

  /** Runs without '/' have distinct URLs. */
  lemma FtpUrlInjective(a: string, b: string)
    requires '/' !in a && '/' !in b
    requires FtpUrl(a) == FtpUrl(b)
    ensures a == b
  {
    FtpUrlRun(a);
    FtpUrlRun(b);
  }

  // ---------------------------------------------------------------------
  // get_sra_records

  /** `record['paths']`, as far as `get_sra_records` indexes it: there must be a first path. */
  function PathsOf(rec: Record): Result<seq<string>> {
    match Get<Field>(rec, "paths")
    case None => Failure("KeyError: 'paths'")
    case Some(NoneField) => Failure("TypeError: 'NoneType' object has no attribute '__getitem__'")
    case Some(Strs(xs)) => if xs == [] then Failure("IndexError: list index out of range") else Success(xs)
    case Some(Str(s)) =>
      // indexing a string gives its characters
      if s == "" then Failure("IndexError: string index out of range")
      else Success(seq(|s|, k requires 0 <= k < |s| => [s[k]]))
  }

  /** There is a first path exactly when `paths` is a non-empty list or text; a list is taken as it is. */
  lemma PathsOfFacts(rec: Record)
    ensures PathsOf(rec).Success? <==> match Get<Field>(rec, "paths")
      case Some(Strs(xs)) => xs != []
      case Some(Str(s)) => s != ""
      case _ => false
    ensures PathsOf(rec).Success? ==> |PathsOf(rec).value| >= 1
    ensures PathsOf(rec).Success? && Get(rec, "paths").value.Strs? ==> PathsOf(rec).value == Get(rec, "paths").value.xs
  {
  }

  /** `record['sample_primary_id'] + "_" + record['experiment_id']` */
  function KeyName(rec: Record): Result<string> {
    match Get<Field>(rec, "sample_primary_id")
    case None => Failure("KeyError: 'sample_primary_id'")
    case Some(NoneField) => Failure("TypeError: unsupported operand type(s) for +: 'NoneType' and 'str'")
    case Some(Strs(_)) => Failure("TypeError: can only concatenate list (not \"str\") to list")
    case Some(Str(p)) =>
      match Get<Field>(rec, "experiment_id")
      case None => Failure("KeyError: 'experiment_id'")
      case Some(NoneField) => Failure("TypeError: cannot concatenate 'str' and 'NoneType' objects")
      case Some(Strs(_)) => Failure("TypeError: cannot concatenate 'str' and 'list' objects")
      case Some(Str(e)) => Success(p + "_" + e)
  }

  /** The key exists exactly when both identifiers are texts, and is the two joined by '_'. */
  lemma KeyNameFacts(rec: Record)
    ensures KeyName(rec).Success? <==> (Get(rec, "sample_primary_id").Some? && Get(rec, "sample_primary_id").value.Str?
      && Get(rec, "experiment_id").Some? && Get(rec, "experiment_id").value.Str?)
    ensures KeyName(rec).Success? ==>
      KeyName(rec).value == Get(rec, "sample_primary_id").value.s + "_" + Get(rec, "experiment_id").value.s
  {
  }

  /** The sample's name: `sample_name` when the record has one, else `sample_primary_id`. */
  function NameOf(rec: Record): Field {
    match Get<Field>(rec, "sample_name")
    case Some(v) => v
    case None => Get(rec, "sample_primary_id").UnwrapOr(NoneField)
  }

  /** `[ftp_url(p) for p in paths]` */
  function Urls(paths: seq<string>): (r: seq<string>)
    ensures |r| == |paths| && forall k :: 0 <= k < |r| ==> r[k] == FtpUrl(paths[k])
  {
    seq(|paths|, k requires 0 <= k < |paths| => FtpUrl(paths[k]))
  }

  lemma UrlsStep(ps: seq<string>, j: nat)
    requires j < |ps|
    ensures Urls(ps[..j + 1]) == Urls(ps[..j]) + [FtpUrl(ps[j])]
  {
    assert ps[..j + 1][j] == ps[j];
  }

  /** `m[p] = v` for every path `p` of `ps`. */
  function StoreAll(m: map<string, Record>, ps: seq<string>, v: Record): map<string, Record> {
    m + map p | p in ps :: v
  }

  lemma StoreAllStep(m: map<string, Record>, ps: seq<string>, j: nat, v: Record)
    requires j < |ps|
    ensures StoreAll(m, ps[..j + 1], v) == StoreAll(m, ps[..j], v)[ps[j] := v]
  {
    assert ps[..j + 1] == ps[..j] + [ps[j]];
  }

  /** The three dictionaries and the last `key_url` the loop saw. */
  datatype Tables = Tables(
    files: map<string, seq<string>>,
    names: map<string, Field>,
    records: map<string, Record>,
    last: Option<string>)

  /** One pass of the loop of `get_sra_records` over one parsed record. */
  function Step(rec: Record, t: Tables): Result<Tables> {
    var paths := PathsOf(rec);
    if paths.Failure? then Failure(paths.error)
    else
      var key := KeyName(rec);
      if key.Failure? then Failure(key.error)
      else
        var ps := paths.value;
        var stored := Store(rec, "manifest_name", Str(key.value));
        Success(Tables(t.files[key.value := Urls(ps)], t.names[key.value := NameOf(rec)],
          StoreAll(t.records, ps, stored), Some(ps[|ps| - 1])))
  }

  /** The loop's state after the records, and the first failure if one stops it. */
  datatype Ingested = Ingested(tables: Tables, error: Option<string>)

  /** The loop of `get_sra_records` from record `i` on: a failure stops it, keeping what was stored. */
  function Ingest(recs: seq<Record>, i: nat, t: Tables): Ingested
    requires i <= |recs|
    decreases |recs| - i
  {
    if i == |recs| then Ingested(t, None)
    else
      match Step(recs[i], t)
      case Failure(e) => Ingested(t, Some(e))
      case Success(t2) => Ingest(recs, i + 1, t2)
  }

  /** What follows the loop: `self.sra_records[key_url]['library_type']` is looked up and tested. */
  function Finish(o: Ingested): Option<string> {
    if o.error.Some? then o.error
    else match o.tables.last
      case None => Some("UnboundLocalError: local variable 'key_url' referenced before assignment")
      case Some(p) =>
        if p !in o.tables.records then None
        else match Get<Field>(o.tables.records[p], "library_type")
          case None => Some("KeyError: 'library_type'")
          case Some(NoneField) => Some("TypeError: argument of type 'NoneType' is not iterable")
          case Some(_) => None
  }

  /**
   * One successful record: its sample key maps to the URLs of all its paths
   * in order (each naming its path again), and to its name; every path maps
   * to the record with `manifest_name` set to the key; nothing else changes.
   */
  lemma StepFacts(rec: Record, t: Tables)
    ensures Step(rec, t).Success? <==> PathsOf(rec).Success? && KeyName(rec).Success?
    ensures Step(rec, t).Success? ==>
      var key := KeyName(rec).value;
      var ps := PathsOf(rec).value;
      var t2 := Step(rec, t).value;
      && key in t2.files && |t2.files[key]| == |ps|
      && (forall k :: 0 <= k < |ps| && '/' !in ps[k] ==> RunOf(t2.files[key][k]) == ps[k])
      && key in t2.names && t2.names[key] == NameOf(rec)
      && (forall k :: k in t.files && k != key ==> k in t2.files && t2.files[k] == t.files[k])
      && (forall k :: k in t.names && k != key ==> k in t2.names && t2.names[k] == t.names[k])
  {
    if Step(rec, t).Success? {
      var key := KeyName(rec).value;
      var ps := PathsOf(rec).value;
      var t2 := Step(rec, t).value;
      forall k | 0 <= k < |ps| && '/' !in ps[k] ensures RunOf(t2.files[key][k]) == ps[k] {
        FtpUrlRun(ps[k]);
      }
    }
  }

  /** A successful record adds its sample key to `sample_to_file` and `sample_to_name`. */
  lemma StepKeys(rec: Record, t: Tables)
    requires Step(rec, t).Success?
    ensures Step(rec, t).value.files.Keys == t.files.Keys + {KeyName(rec).value}
    ensures Step(rec, t).value.names.Keys == t.names.Keys + {KeyName(rec).value}
  {
  }

  /** Every path of a successful record maps to the record, stamped with its sample key. */
  lemma StepRecords(rec: Record, t: Tables)
    requires Step(rec, t).Success?
    ensures var key := KeyName(rec).value;
      var ps := PathsOf(rec).value;
      var t2 := Step(rec, t).value;
      && t2.records.Keys == t.records.Keys + (set k | 0 <= k < |ps| :: ps[k])
      && (forall p :: p in t.records && p !in ps ==> t2.records[p] == t.records[p])
      && (forall p :: p in ps ==> (Get(t2.records[p], "manifest_name") == Some(Str(key))
            && forall k2 :: k2 != "manifest_name" ==> Get(t2.records[p], k2) == Get(rec, k2)))
      && t2.last == Some(ps[|ps| - 1])
  {
    var ps := PathsOf(rec).value;
    var t2 := Step(rec, t).value;
    StoreFacts(rec, "manifest_name", Str(KeyName(rec).value));
    assert forall p :: p in ps <==> p in set k | 0 <= k < |ps| :: ps[k];
  }

  /** The sample keys of records `i` onward, of those that succeed. */
  function KeysFrom(recs: seq<Record>, i: nat): set<string>
    requires i <= |recs|
    decreases |recs| - i
  {
    if i == |recs| then {}
    else (if KeyName(recs[i]).Success? then {KeyName(recs[i]).value} else {}) + KeysFrom(recs, i + 1)
  }

  /** When no record fails, `sample_to_file` and `sample_to_name` gain exactly the sample keys. */
  lemma {:induction false} IngestKeys(recs: seq<Record>, i: nat, t: Tables)
    requires i <= |recs|
    requires Ingest(recs, i, t).error.None?
    ensures Ingest(recs, i, t).tables.files.Keys == t.files.Keys + KeysFrom(recs, i)
    ensures Ingest(recs, i, t).tables.names.Keys == t.names.Keys + KeysFrom(recs, i)
    decreases |recs| - i
  {
    if i < |recs| {
      var t2 := Step(recs[i], t).value;
      StepKeys(recs[i], t);
      IngestKeys(recs, i + 1, t2);
    }
  }

  /** A sample key not used by records `i` onward keeps its file list and name. */
  lemma {:induction false} IngestKeeps(recs: seq<Record>, i: nat, t: Tables, key: string)
    requires i <= |recs|
    requires key in t.files && key in t.names
    requires forall j :: i <= j < |recs| ==> KeyName(recs[j]) != Success(key)
    ensures key in Ingest(recs, i, t).tables.files && Ingest(recs, i, t).tables.files[key] == t.files[key]
    ensures key in Ingest(recs, i, t).tables.names && Ingest(recs, i, t).tables.names[key] == t.names[key]
    decreases |recs| - i
  {
    if i < |recs| && Step(recs[i], t).Success? {
      StepFacts(recs[i], t);
      IngestKeeps(recs, i + 1, Step(recs[i], t).value, key);
    }
  }

  /**
   * When no record fails, the last record with a given sample key decides
   * that key's file list (the URLs of its paths) and name.
   */
  lemma {:induction false} IngestLastWins(recs: seq<Record>, i: nat, t: Tables, j: nat)
    requires i <= j < |recs|
    requires Ingest(recs, i, t).error.None?
    requires forall j2 :: j < j2 < |recs| ==> KeyName(recs[j2]) != KeyName(recs[j])
    ensures KeyName(recs[j]).Success? && PathsOf(recs[j]).Success?
    ensures var key := KeyName(recs[j]).value;
      && key in Ingest(recs, i, t).tables.files
      && Ingest(recs, i, t).tables.files[key] == Urls(PathsOf(recs[j]).value)
      && key in Ingest(recs, i, t).tables.names
      && Ingest(recs, i, t).tables.names[key] == NameOf(recs[j])
    decreases |recs| - i
  {
    var t2 := Step(recs[i], t).value;
    StepFacts(recs[i], t);
    if i < j {
      IngestLastWins(recs, i + 1, t2, j);
    } else {
      var key := KeyName(recs[j]).value;
      assert t2.files[key] == Urls(PathsOf(recs[j]).value);
      IngestKeeps(recs, i + 1, t2, key);
    }
  }

  // ---------------------------------------------------------------------
  // check_str and write_records

  /** `check_str(val)`: lists are joined with ';'; None has no `encode`. */
  function CheckStr(v: Field): (r: Result<string>)
    ensures r.Success? <==> !v.NoneField?
    ensures v.Str? ==> r == Success(v.s)
  {
    match v
    case Strs(xs) => Success(Join(";", xs))
    case Str(s) => Success(s)
    case NoneField => Failure("AttributeError: 'NoneType' object has no attribute 'encode'")
  }

  /** A list value without ';' splits back into its items. */
  lemma CheckStrSplit(xs: seq<string>)
    requires xs != []
    requires forall k :: 0 <= k < |xs| ==> ';' !in xs[k]
    ensures Split(CheckStr(Strs(xs)).value, ';') == xs
  {
    SplitJoin(xs, ';');
  }

  /** `[k1 + ":" + check_str(v1) for k1, v1 in v.iteritems()]`, failing at the first None. */
  function Fields(rec: Record): (r: Result<seq<string>>)
    ensures r.Success? <==> forall k :: 0 <= k < |rec| ==> !rec[k].1.NoneField?
    ensures r.Success? ==> (|r.value| == |rec|
      && forall k :: 0 <= k < |rec| ==> r.value[k] == rec[k].0 + ":" + CheckStr(rec[k].1).value)
    decreases |rec|
  {
    if rec == [] then Success([])
    else
      var v := CheckStr(rec[0].1);
      if v.Failure? then Failure(v.error)
      else
        var rest := Fields(rec[1..]);
        if rest.Failure? then rest
        else
          assert forall k :: 1 <= k < |rec| ==> rec[k] == rec[1..][k - 1];
          Success([rec[0].0 + ":" + v.value] + rest.value)
  }

  /** The line `write_records` writes for path `k` and its record. */
  function RecordLine(k: string, rec: Record): (r: Result<string>)
    ensures r.Success? <==> Fields(rec).Success?
  {
    var fs := Fields(rec);
    if fs.Failure? then Failure(fs.error) else Success(k + "," + Join(",", fs.value) + "\n")
  }

  /**
   * Without commas inside, a line ends in a newline and splits on ',' into
   * its path and its `key:value` fields (an empty record leaves one empty field).
   */
  lemma LineFields(k: string, rec: Record)
    requires Fields(rec).Success?
    requires ',' !in k && forall i :: 0 <= i < |Fields(rec).value| ==> ',' !in Fields(rec).value[i]
    ensures var line := RecordLine(k, rec).value;
      && |line| >= 1 && line[|line| - 1] == '\n'
      && Split(line[..|line| - 1], ',') == [k] + (if rec == [] then [""] else Fields(rec).value)
  {
    var fs := Fields(rec).value;
    var parts := [k] + (if rec == [] then [""] else fs);
    var line := RecordLine(k, rec).value;
    assert parts[1..] == (if rec == [] then [""] else fs);
    assert Join(",", parts) == k + "," + Join(",", fs);
    assert line[..|line| - 1] == Join(",", parts);
    SplitJoin(parts, ',');
  }

  /** Pairwise distinct. */
  predicate Distinct(xs: seq<string>) {
    forall a, b :: 0 <= a < b < |xs| ==> xs[a] != xs[b]
  }

  /**
   * The class-level dictionaries of `SraUtils`. They belong to the class,
   * so one object here stands for all instances.
   */
  class SraUtils {
    var sampleToFile: map<string, seq<string>>
    var sampleToName: map<string, Field>
    var sraRecords: map<string, Record>

    constructor ()
      ensures sampleToFile == map[] && sampleToName == map[] && sraRecords == map[]
    {
      sampleToFile := map[];
      sampleToName := map[];
      sraRecords := map[];
    }

    /**
     * `get_sra_records` over the parsed records: fills the three
     * dictionaries record by record, and returns the error that stops it.
     */
    method GetSraRecords(recs: seq<Record>) returns (err: Option<string>)
      modifies this
      ensures var o := Ingest(recs, 0, Tables(old(sampleToFile), old(sampleToName), old(sraRecords), None));
        && sampleToFile == o.tables.files && sampleToName == o.tables.names && sraRecords == o.tables.records
        && err == Finish(o)
    {
      ghost var t0 := Tables(sampleToFile, sampleToName, sraRecords, None);
      var keyUrl: Option<string> := None;
      var i := 0;
      while i < |recs|
        invariant i <= |recs|
        invariant Ingest(recs, 0, t0) == Ingest(recs, i, Tables(sampleToFile, sampleToName, sraRecords, keyUrl))
        invariant keyUrl.Some? ==> keyUrl.value in sraRecords
      {
        ghost var t := Tables(sampleToFile, sampleToName, sraRecords, keyUrl);
        var r := AddRecord(recs[i]);
        if r.Failure? {
          return Some(r.error);
        }
        keyUrl := Some(r.value);
        assert Step(recs[i], t) == Success(Tables(sampleToFile, sampleToName, sraRecords, keyUrl));
        i := i + 1;
      }
      if keyUrl.None? {
        return Some("UnboundLocalError: local variable 'key_url' referenced before assignment");
      }
      match Get<Field>(sraRecords[keyUrl.value], "library_type")
      case None => err := Some("KeyError: 'library_type'");
      case Some(NoneField) => err := Some("TypeError: argument of type 'NoneType' is not iterable");
      case Some(_) => err := None;
    }

    /** One pass of the loop: stores one record, returning its last path, or fails leaving everything as it was. */
    method AddRecord(rec: Record) returns (r: Result<string>)
      modifies this
      ensures var s := Step(rec, Tables(old(sampleToFile), old(sampleToName), old(sraRecords), None));
        && (r.Success? <==> s.Success?)
        && (s.Failure? ==> (r.error == s.error && sampleToFile == old(sampleToFile)
              && sampleToName == old(sampleToName) && sraRecords == old(sraRecords)))
        && (s.Success? ==> (s.value == Tables(sampleToFile, sampleToName, sraRecords, Some(r.value))
              && r.value in sraRecords))
    {
      var paths := PathsOf(rec);
      if paths.Failure? {
        return Failure(paths.error);
      }
      var key := KeyName(rec);
      if key.Failure? {
        return Failure(key.error);
      }
      var ps := paths.value;
      var stored := Store(rec, "manifest_name", Str(key.value));
      sampleToName := sampleToName[key.value := NameOf(rec)];
      AddPaths(key.value, ps, stored);
      r := Success(ps[|ps| - 1]);
    }

    /** `sample_to_file[key]` gets the URL of each path in order, and each path the record. */
    method AddPaths(key: string, ps: seq<string>, stored: Record)
      requires |ps| >= 1
      modifies this
      ensures sampleToFile == old(sampleToFile)[key := Urls(ps)]
      ensures sraRecords == StoreAll(old(sraRecords), ps, stored)
      ensures sampleToName == old(sampleToName)
      ensures ps[|ps| - 1] in sraRecords
    {
      ghost var files := sampleToFile;
      ghost var records := sraRecords;
      sampleToFile := sampleToFile[key := []];
      var j := 0;
      while j < |ps|
        invariant j <= |ps|
        invariant sampleToFile == files[key := Urls(ps[..j])]
        invariant sraRecords == StoreAll(records, ps[..j], stored)
        invariant sampleToName == old(sampleToName)
      {
        UrlsStep(ps, j);
        StoreAllStep(records, ps, j, stored);
        sampleToFile := sampleToFile[key := sampleToFile[key] + [FtpUrl(ps[j])]];
        sraRecords := sraRecords[ps[j] := stored];
        j := j + 1;
      }
      assert ps[..j] == ps;
    }

    /**
     * `write_records(outfile)`: with no outfile nothing is written; otherwise
     * one line per path of `sra_records`, in some order of the keys, or the
     * error of a record with a None value.
     */
    method WriteRecords(outfile: Option<string>) returns (r: Result<seq<string>>, ghost order: seq<string>)
      ensures outfile.None? ==> r == Success([])
      ensures outfile.Some? ==>
        (r.Success? <==> forall k :: k in sraRecords ==> RecordLine(k, sraRecords[k]).Success?)
      ensures r.Failure? ==> exists k :: k in sraRecords && RecordLine(k, sraRecords[k]) == Failure(r.error)
      ensures outfile.Some? && r.Success? ==>
        && Distinct(order) && (forall k :: k in order <==> k in sraRecords)
        && |r.value| == |order|
        && forall i :: 0 <= i < |order| ==> (order[i] in sraRecords
          && r.value[i] == RecordLine(order[i], sraRecords[order[i]]).value)
    {
      order := [];
      if outfile.None? {
        return Success([]), order;
      }
      var remaining := sraRecords.Keys;
      var lines: seq<string> := [];
      while remaining != {}
        invariant remaining <= sraRecords.Keys
        invariant forall k :: k in order ==> k in sraRecords && k !in remaining
        invariant forall k :: k in sraRecords ==> k in order || k in remaining
        invariant Distinct(order) && |lines| == |order|
        invariant forall i :: 0 <= i < |order| ==> RecordLine(order[i], sraRecords[order[i]]) == Success(lines[i])
        decreases |remaining|
      {
        var k :| k in remaining;
        var line := RecordLine(k, sraRecords[k]);
        if line.Failure? {
          return Failure(line.error), order;
        }
        lines := lines + [line.value];
        order := order + [k];
        remaining := remaining - {k};
      }
      r := Success(lines);
    }
  }
}
