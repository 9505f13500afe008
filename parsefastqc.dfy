// The FastQC report parser of bioutils.parse_fastqc: where each module of
// fastqc_data.txt starts and stops, and the per-base sequence quality
// module's lines and header.
module FastqcParse {
  import opened Wrappers
  import opened PyStr

  /** `re.search('^>>', line)`: a module header or a module end. */
  predicate IsMarker(line: string) {
    StartsWith(line, ">>")
  }

  /** `re.search('^>>END_MODULE', line)` */
  predicate IsEnd(line: string) {
    StartsWith(line, ">>END_MODULE")
  }

  /** Strictly ascending indices. */
  predicate Ascending(xs: seq<nat>) {
    forall a, b :: 0 <= a < b < |xs| ==> xs[a] < xs[b]
  }

  /** `[i for i, item in enumerate(lines) if p(item)]` */
  function Where(lines: seq<string>, p: string -> bool): (r: seq<nat>)
    ensures Ascending(r)
    ensures forall k :: 0 <= k < |r| ==> r[k] < |lines| && p(lines[r[k]])
    ensures forall i :: 0 <= i < |lines| && p(lines[i]) ==> i in r
    decreases |lines|
  {
    if lines == [] then []
    else
      var n := |lines| - 1;
      var pre := Where(lines[..n], p);
      assert forall k :: 0 <= k < |pre| ==> lines[pre[k]] == lines[..n][pre[k]];
      assert forall i :: 0 <= i < n ==> lines[i] == lines[..n][i];
      pre + (if p(lines[n]) then [n] else [])
  }

  /** `module_end_idx`: the lines that end a module. */
  function Ends(lines: seq<string>): seq<nat> {
    Where(lines, IsEnd)
  }

  /** A module header: a marker line that is not a module end. */
  predicate IsHeader(line: string) {
    IsMarker(line) && !IsEnd(line)
  }

  /** `module_start_idx` after `sorted(list(set(start) - set(end)))`. */
  function ModuleStarts(lines: seq<string>): seq<nat> {
    Where(lines, IsHeader)
  }

  /**
   * The starts are `sorted(set(markers) - set(ends))`: exactly the marker
   * indices that are not end indices, each once, in ascending order.
   */
  lemma ModuleStartsSortedDifference(lines: seq<string>)
    ensures Ascending(ModuleStarts(lines))
    ensures (set k | 0 <= k < |ModuleStarts(lines)| :: ModuleStarts(lines)[k]) ==
      (set k | 0 <= k < |Where(lines, IsMarker)| :: Where(lines, IsMarker)[k]) -
      (set k | 0 <= k < |Ends(lines)| :: Ends(lines)[k])
  {
    var st := ModuleStarts(lines);
    var mk := Where(lines, IsMarker);
    var en := Ends(lines);
    var a := set k | 0 <= k < |st| :: st[k];
    var b := set k | 0 <= k < |mk| :: mk[k];
    var c := set k | 0 <= k < |en| :: en[k];
    forall i | i in a ensures i in b - c {
      var k :| 0 <= k < |st| && st[k] == i;
      assert i in mk;
      assert forall j :: 0 <= j < |en| ==> IsEnd(lines[en[j]]);
    }
    forall i | i in b - c ensures i in a {
      var k :| 0 <= k < |mk| && mk[k] == i;
      assert IsEnd(lines[i]) ==> i in en;
      assert i in st;
    }
  }

  /** `module_names`: the line at every module start. */
  function ModuleNames(lines: seq<string>): (r: seq<string>)
    ensures |r| == |ModuleStarts(lines)|
    ensures forall k :: 0 <= k < |r| ==> r[k] == lines[ModuleStarts(lines)[k]] && IsHeader(r[k])
  {
    var st := ModuleStarts(lines);
    seq(|st|, k requires 0 <= k < |st| => lines[st[k]])
  }

  /** Python 2 `zip(a, b)`: pairs up to the shorter list. */
  function Zip(a: seq<nat>, b: seq<nat>): (r: seq<(nat, nat)>)
    ensures |r| == if |a| < |b| then |a| else |b|
    ensures forall k :: 0 <= k < |r| ==> r[k] == (a[k], b[k])
  {
    var n := if |a| < |b| then |a| else |b|;
    seq(n, k requires 0 <= k < n => (a[k], b[k]))
  }

  /** A Python slice bound: negative counts from the end, and both are clipped to the list. */
  function SliceBound(i: int, n: nat): (r: nat)
    ensures r <= n
  {
    if i < 0 then (if i + n < 0 then 0 else i + n) else if i > n then n else i
  }

  /** `xs[a:b]` */
  function PySlice<T>(xs: seq<T>, a: int, b: int): seq<T> {
    var lo := SliceBound(a, |xs|);
    var hi := SliceBound(b, |xs|);
    if lo < hi then xs[lo..hi] else []
  }

  /** Within the list, a slice is the plain subsequence. */
  lemma PySliceInRange<T>(xs: seq<T>, a: int, b: int)
    requires 0 <= a <= b <= |xs|
    ensures PySlice(xs, a, b) == xs[a..b]
  {
  }

  /** `self.parsed_results[loc[0]+1: loc[1]-1]` with `loc = self.module_start_stop[1]`. */
  function SeqQuals(pairs: Option<seq<(nat, nat)>>, lines: Option<seq<string>>): (r: Result<seq<string>>)
    ensures r.Success? <==> pairs.Some? && |pairs.value| >= 2 && lines.Some?
    ensures r.Success? ==> r.value == PySlice(lines.value, pairs.value[1].0 + 1, pairs.value[1].1 as int - 1)
  {
    if pairs.None? then Failure("TypeError: 'NoneType' object has no attribute '__getitem__'")
    else if |pairs.value| < 2 then Failure("IndexError: list index out of range")
    else if lines.None? then Failure("TypeError: 'NoneType' object has no attribute '__getitem__'")
    else
      var loc := pairs.value[1];
      Success(PySlice(lines.value, loc.0 + 1, loc.1 as int - 1))
  }

  /** `seq_quals_data[0].strip('\n').strip('#').split('\t')` */
  function Header(data: seq<string>): (r: Result<seq<string>>)
    ensures r.Success? <==> data != []
  {
    if data == [] then Failure("IndexError: list index out of range")
    else Success(Split(Strip(Strip(data[0], {'\n'}), {'#'}), '\t'))
  }

  /** The header fields hold no tab and join back with tabs into the stripped first line. */
  lemma HeaderFields(data: seq<string>)
    requires data != []
    ensures var line := Strip(Strip(data[0], {'\n'}), {'#'});
      && Join("\t", Header(data).value) == line
      && forall k :: 0 <= k < |Header(data).value| ==> '\t' !in Header(data).value[k]
  {
    var line := Strip(Strip(data[0], {'\n'}), {'#'});
    JoinSplit(line, '\t');
    SplitFields(line, '\t');
  }

  /**
   * The second module's data: with its start before its end, the lines
   * strictly between the start line and the line before the end line.
   */
  lemma SecondModuleLines(lines: seq<string>)
    requires |Zip(ModuleStarts(lines), Ends(lines))| >= 2
    requires var loc := Zip(ModuleStarts(lines), Ends(lines))[1]; loc.0 + 2 <= loc.1
    ensures var loc := Zip(ModuleStarts(lines), Ends(lines))[1];
      && SeqQuals(Some(Zip(ModuleStarts(lines), Ends(lines))), Some(lines)) == Success(lines[loc.0 + 1..loc.1 - 1])
      && loc.0 == ModuleStarts(lines)[1] && IsHeader(lines[loc.0])
      && loc.1 == Ends(lines)[1] && IsEnd(lines[loc.1])
  {
    var loc := Zip(ModuleStarts(lines), Ends(lines))[1];
    PySliceInRange(lines, loc.0 + 1, loc.1 as int - 1);
  }

  /** `FastqcParser`: the report lines and where its modules lie, filled in by `parse_results_file`. */
  class FastqcParser {
    var moduleNames: Option<seq<string>>
    var parsedResults: Option<seq<string>>
    var moduleStartStop: Option<seq<(nat, nat)>>
    var seqQualsData: Option<seq<string>>

    constructor ()
      ensures moduleNames.None? && parsedResults.None? && moduleStartStop.None? && seqQualsData.None?
    {
      moduleNames := None;
      parsedResults := None;
      moduleStartStop := None;
      seqQualsData := None;
    }

    /** `parse_results_file`, given the lines of fastqc_data.txt. */
    method ParseResultsFile(lines: seq<string>)
      modifies this
      ensures parsedResults == Some(lines)
      ensures moduleNames == Some(ModuleNames(lines))
      ensures moduleStartStop == Some(Zip(ModuleStarts(lines), Ends(lines)))
      ensures seqQualsData == old(seqQualsData)
    {
      parsedResults := Some(lines);
      var starts := ModuleStarts(lines);
      moduleNames := Some(ModuleNames(lines));
      moduleStartStop := Some(Zip(starts, Ends(lines)));
    }

    /**
     * `extract_seq_quals_module`: stores the second module's lines and
     * returns the header it prints.
     */
    method ExtractSeqQualsModule() returns (header: Result<seq<string>>)
      modifies this
      ensures moduleNames == old(moduleNames) && parsedResults == old(parsedResults)
      ensures moduleStartStop == old(moduleStartStop)
      ensures var data := SeqQuals(old(moduleStartStop), old(parsedResults));
        && seqQualsData == (if data.Success? then Some(data.value) else old(seqQualsData))
        && header == if data.Success? then Header(data.value) else Failure(data.error)
    {
      var data := SeqQuals(moduleStartStop, parsedResults);
      if data.Failure? {
        return Failure(data.error);
      }
      seqQualsData := Some(data.value);
      header := Header(data.value);
    }
  }
}
