# bioflows, modelled in Dafny

bioflows compiles a bioinformatics workflow into cluster jobs. A YAML file declares the tool steps in order, for example FastQC, gsnap, samtools and htseq-count. For every (sample, step) pair the program builds:

- one shell command line;
- a checkpoint file name;
- a resource record (mem, time, ncpus).

It then links one sample's steps into a luigi chain, in which every task requires the task after it. This project models that compiler and the string, list and number helpers around it. It proves properties of the model.

## What is modelled, file by file

| Dafny file (module) | part of bioflows |
|---|---|
| `wrappers.dfy` (Wrappers) | the `Option` / `Result` datatypes. Every `KeyError`, `IndexError`, `TypeError`, `NameError`, `UnboundLocalError`, `AttributeError` and `sys.exit` of the code becomes a `Failure` carrying the message. The one exception is the older workflow's `create_catalog`, which always raises and is left out (see "Left out"). |
| `pystr.dfy` (PyStr) | the Python string primitives the code relies on, stated exactly: `split` keeps empty fields, `in` is a substring test, `replace` rewrites every occurrence, `strip(chars)` trims a character set, and `os.path.join` restarts at an absolute part. `int`/`str` conversions are included. |
| `params.dfy` (Params) | the configuration values and the job-parameter dictionary. The dictionary is a class because wrappers share it by reference and update it in place. Also the keyword-argument record and the `Host` value that stands for sha224 and the process directory. |
| `dicts.dfy` (Dicts) | dictionaries whose iteration order matters, kept as sequences of pairs |
| `base_wrapper.dfy` (BaseWrappers) | `BaseWrapper` of `bioflowsutils/wrappers.py`: `init`, `prog_name_clean`, `join_split_cmd`, `setup_command`, `name_clean`, `add_threading` and the redirect rules of `setup_run`. It is a class `Wrapper` with the fields the methods update. |
| `tools.dfy`, `tool_facts.dfy` (Tools, ToolFacts) | the per-tool constructors of `wrappers.py`, from FastQC to Gatk, as data: argument order, checkpoint target, default resource profile and custom-override rule. `Build` runs one of them on a `Wrapper`. The facts include the command lines the wrapper unit tests expect. |
| `new_wrappers.dfy` (NewWrappers) | `BaseWrapperNew`: suffix resolution (`update_file_suffix`), default-argument merging (`update_default_args`), `make_target`, `reset_add_args` and `setup_run` |
| `picard.dfy`, `gatk.dfy`, `samtools.dfy`, `qiime2.dfy` (PicardTools, GatkTools, SamToolsFamily, QiimeTools) | the four tool families. Each dispatches on its subcommand, picks default suffixes, builds its checkpoint target and splices the user's arguments into the defaults. |
| `utils.dfy`, `table.dfy`, `newick.dfy` (Utils, Table, Newick) | the pure helpers of `bioflowsutils/utils.py`: `safe_str`, `safe_taxon`, `mem_to_mb`, `number_range`, `sorted_alphanum`, `indent`, `basename`, `none_to_empty`, `table` and `newick_to_json` |
| `compile.dfy` (Compile) | the step compiler of `rnaseqworkflow.py`: `find_command_rounds`, `parse_prog_info` with its option strings, job parameters and final reversal |
| `config.dfy` (Config) | the configuration side of the workflow, covering paths, base_kwargs, saga parameters, the sample manifest, fastq links, SRA conversion commands, `write_cmds` and `test_paths` |
| `chain.dfy`, `tasks.dfy` (Chain, Tasks) | `chain_commands` of RnaSeqFlow, DnaSeqFlow and GatkFlow (the record list of one sample, the seven-record aligner expansion and the round keys); `TaskSequence.requires`, `TopTask` and `BaseTask.setup` |
| `workflow.dfy` (Workflow) | the workflow object: a class holding the class-level `progs`, `progs_job_parms`, `sample_fastq_work` and `allTasks`, with the imperative loops that fill them and `update_job_parms` on the shared `new_base_kwargs` |
| `old_workflow.dfy` (OldWorkflow) | the older copy `definedworkflows/rnaseq/rnaseqworkflow.py`. It has no rounds, renders options as `"%s %s"`, and its `update_job_parms` returns a fresh deep copy. Also its `chain_commands`, `download_sra_cmds` and job setup. |
| `sra.dfy` (Sra) | `ftp_url`, the record-to-sample mapping of `get_sra_records` over already-parsed records, `check_str` and the line format of `write_records` |
| `parsefastqc.dfy` (FastqcParse) | the module-boundary indexing of `parse_results_file` and `extract_seq_quals_module` |

### Inputs abstracted as parameters

- sha224 is an uninterpreted function inside `Host`, and so is the process's current directory.
- `os.path.abspath` keeps an absolute path and prefixes a relative one with that directory.
- Parsed YAML, parsed SRA records and the lines of `fastqc_data.txt` are inputs.
- A wrapper as jsonpickle stores it is the record of its fields right after construction.
- Python 2 dictionaries iterate in hash order. The model takes them in the order they are listed: the order of the emitted lines follows that listing, while which lines there are, and whether a call raises, do not depend on it.

### Where the model follows the code rather than a test

- Several tests call methods that the code does not define, such as `remove_prog_round_suffix`, `update_prog_suffixes` and the class `Biobambam`. Where a test's expectation can be read as a statement about an existing function, the model states it for that function. `BaseWrappers.ProgNameCleanFastqc` and `ProgNameCleanSamtools` apply the `remove_prog_round_suffix` expectations to `prog_name_clean`.
- `bioflows/test_wrappers/test_wrappers.py` expects FastQC's second run without " -o"; the constructor adds it again (wrappers.py line 353), and the model follows the constructor, as the newer test in `test_wrappers_misc.py` does.

## Model

| member | source | states |
|---|---|---|
| Utils.Sanitize | bioflows/bioflowsutils/utils.py:215-216 | the result has the input's length; each character is kept when allowed and is '_' otherwise |
| Utils.SanitizeFacts | bioflows/bioflowsutils/utils.py:209-226 | when '_' is allowed: every output character is allowed, a second pass changes nothing, and a string is unchanged exactly when all its characters are allowed |
| Utils.SafeStrFacts | bioflows/bioflowsutils/utils.py:209-216 | `safe_str` keeps the length and every letter, digit and one of ()[]{}\|:.-_, turns every other character into '_', and is idempotent; a string is unchanged iff it is already safe |
| Utils.SafeTaxonFacts | bioflows/bioflowsutils/utils.py:219-226 | `safe_taxon` does the same with letters, digits and '_' only, and its output is unchanged by `safe_str` |
| Utils.MemUnitEndsWith | bioflows/bioflowsutils/utils.py:503-513 | the unit recognised is exactly the first of the source's `endswith` tests that holds: G/g, then gb/Gb/GB, then m/M, then mb/Mb/MB |
| Utils.MemToMb | bioflows/bioflowsutils/utils.py:497-518 | an unrecognised unit aborts with the source's message; otherwise the prefix before the unit is parsed, a rejected prefix aborts, and an accepted one gives its value times the unit's factor |
| Utils.MemParsed | bioflows/bioflowsutils/utils.py:515-516 | a recognised unit after an integer prefix gives that integer times 1024 or 1 |
| Utils.MemUnitOne | bioflows/bioflowsutils/utils.py:503-508 | "<n>G", "<n>g" give n*1024 and "<n>m", "<n>M" give n, for every integer n |
| Utils.MemUnitTwo | bioflows/bioflowsutils/utils.py:505-511 | "<n>gb", "<n>Gb", "<n>GB" give n*1024 and "<n>mb", "<n>Mb", "<n>MB" give n |
| Utils.MemNoUnit | bioflows/bioflowsutils/utils.py:512-518 | a bare number aborts (no unit), and so does a unit with no number |
| Utils.Basename | bioflows/bioflowsutils/utils.py:451-456 | the result holds no '/' and is a prefix of the path's last component |
| Utils.BasenameStem | bioflows/bioflowsutils/utils.py:451-456 | under any directory, "stem.ext" with a dot-free stem and extension gives the stem |
| Utils.NoneToEmpty | bioflows/bioflowsutils/utils.py:673-680 | None gives "" and any text is returned unchanged |
| Utils.IndentLines | bioflows/bioflowsutils/utils.py:665-670 | when `space` holds no newline, the number of '\n'-separated lines is kept and line i becomes n copies of `space` followed by line i with its leading `space` characters stripped |
| Utils.IndentReindent | bioflows/bioflowsutils/utils.py:665-670 | indenting an indented text equals indenting the original: only the last indentation counts |
| Utils.SortInts | bioflows/bioflowsutils/utils.py:476 | `sorted(numbers)` is sorted and a permutation of its input |
| Utils.GroupsExpand | bioflows/bioflowsutils/utils.py:476-477 | the `groupby` runs, read back in order, spell out exactly the list they come from |
| Utils.GroupsShape | bioflows/bioflowsutils/utils.py:476-477 | groups are non-empty and maximal (no run starts right after the previous one ends); on a sorted list they ascend, and without repeats they leave gaps |
| Utils.NumberRange | bioflows/bioflowsutils/utils.py:470-483 | one range string per run of the sorted input |
| Utils.NumberRangeRuns | bioflows/bioflowsutils/utils.py:470-483 | the ranges are the maximal runs of the sorted input in ascending order: together they give every input value with its multiplicity, each string is "a" for a run of one and "a-b" otherwise, and for distinct inputs consecutive runs leave a gap |
| Utils.AlphaKey | bioflows/bioflowsutils/utils.py:408-409 | the key alternates text and integer pieces, starting and ending with a text piece |
| Utils.KeyLtIrreflexive | bioflows/bioflowsutils/utils.py:408-410 | the Python 2 ordering of keys is irreflexive |
| Utils.KeyLtTotal | bioflows/bioflowsutils/utils.py:408-410 | two different keys are ordered one way or the other |
| Utils.KeyLtTransitive | bioflows/bioflowsutils/utils.py:408-410 | the ordering of keys is transitive |
| Utils.SortedAlphanum | bioflows/bioflowsutils/utils.py:402-410 | the result is ordered by the alphanumeric key and is a permutation of the input |
| Utils.AlphaKeyNumbered | bioflows/bioflowsutils/utils.py:408-409 | a digit-free text followed by a number has the key [text, number, ""] |
| Utils.NumbersOrderNumerically | bioflows/bioflowsutils/utils.py:402-410 | names that differ only in a trailing number sort by that number ("file9" before "file10") |
| Table.CellLen | bioflows/bioflowsutils/utils.py:80 | `len(cell)` succeeds exactly on string cells and is their length |
| Table.PadRight | bioflows/bioflowsutils/utils.py:82-85 | a padded cell starts with the cell and is exactly `width` long when the cell fits |
| Table.FormatRowJoin | bioflows/bioflowsutils/utils.py:82-85 | a formatted row is its padded cells joined by single spaces |
| Table.FormatRowLength | bioflows/bioflowsutils/utils.py:82-85 | when every cell fits, a formatted row's length is the sum of the widths plus one space between columns |
| Table.RowFromFacts | bioflows/bioflowsutils/utils.py:79-80 | scanning one row fails exactly on a cell past the first row's arity or without a length; otherwise every width only grows, covers each cell of the row, and is either unchanged or that row's cell length |
| Table.WidthsFromFacts | bioflows/bioflowsutils/utils.py:77-80 | the same for the scan of all remaining rows |
| Table.FormatFromFacts | bioflows/bioflowsutils/utils.py:84-85 | the output loop fails exactly on a row shorter than the widths, and otherwise appends every row formatted, in order |
| Table.FormatAllRows | bioflows/bioflowsutils/utils.py:84-85 | one line per row, line i being row i formatted |
| Table.TableLinesSucceed | bioflows/bioflowsutils/utils.py:63-85 | `table` succeeds exactly on no rows or rows of one arity whose cells are all strings |
| Table.TableLinesShape | bioflows/bioflowsutils/utils.py:63-85 | a table yields one line per row: the row's cells, each left-aligned to its column's longest cell, joined by single spaces |
| Table.WidthsWidest | bioflows/bioflowsutils/utils.py:77-80 | starting from zero widths, the scan ends with each column's longest cell length |
| Table.ConvertedTableSucceeds | bioflows/bioflowsutils/utils.py:72-80 | after `convert`, only a row of another arity can make `table` fail |
| Table.TableAligned | bioflows/bioflowsutils/utils.py:63-85 | every line of a table has the same length: the sum of the column widths plus the separating spaces |
| Table.ConvertRows | bioflows/bioflowsutils/utils.py:73-75 | the caller's array of rows is overwritten element by element with the rows' string forms |
| Table.ColumnWidths | bioflows/bioflowsutils/utils.py:77-80 | the nested width loops compute what the width scan specifies |
| Table.FormatLines | bioflows/bioflowsutils/utils.py:82-85 | the output loop computes the specified lines |
| Table.Tabulate | bioflows/bioflowsutils/utils.py:63-85 | the lines are those of the table of the (possibly converted) rows, and with `convert` the caller's rows are left converted in place |
| Newick.RemoveChar | bioflows/bioflowsutils/utils.py:633 | the result holds no ';' and is the input itself when there was none |
| Newick.LabelDistance | bioflows/bioflowsutils/utils.py:623-629 | the label holds no ':' and label, ':' and distance give back the text; without ':' the label is the whole text and the distance "" |
| Newick.ParseNodeLoop | bioflows/bioflowsutils/utils.py:588-631 | the character loop with its `continue` and `break`, followed by the '\|' loop, returns what `parseNode` specifies |
| Newick.ChildrenFacts | bioflows/bioflowsutils/utils.py:648-650 | the children succeed exactly when every item does, and are the items' trees in order |
| Newick.LeafItem | bioflows/bioflowsutils/utils.py:634-642 | a single item without parentheses is a leaf split at its first ':' |
| Newick.NameList | bioflows/bioflowsutils/utils.py:634-644 | a comma list without parentheses is returned as its plain items |
| Newick.SemicolonsIgnored | bioflows/bioflowsutils/utils.py:633 | every ';' is dropped before anything else is read |
| Newick.MarkedJoin | bioflows/bioflowsutils/utils.py:608-614 | comma-joined balanced pieces are balanced, and their marks are the pieces' marks joined by the depth-1 commas |
| Newick.ScanNode | bioflows/bioflowsutils/utils.py:594-616 | over "(" + balanced body + ")" + tail the loop keeps the body with its nested commas marked and leaves `tail` as the tree |
| Newick.SplitMarked | bioflows/bioflowsutils/utils.py:618-621 | splitting the marks at the commas and unmarking gives back the pieces |
| Newick.ParseNodeRoundTrip | bioflows/bioflowsutils/utils.py:588-631 | `parseNode` over "(" + comma-joined pieces + ")" + tail gives back exactly the pieces and the tail's label and distance |
| Newick.NodeRoundTrip | bioflows/bioflowsutils/utils.py:581-652 | a node written as "(" + comma-joined children + ")" + label text reads back as those children split at depth-1 commas only, with the tail's label and distance, and succeeds exactly when every child does |
| Newick.NodeOf | bioflows/bioflowsutils/utils.py:645-652 | a string with a '(' is a node of its items' trees |
| Params.ValStrText | bioflows/bioflowsutils/wrappers.py:384 | `str` of a text value is the text itself, and of a number its decimal form, which parses back to it |
| Params.FalseStringIsTruthy | bioflows/bioflowsutils/wrappers.py:92-93 | the text 'False' from a configuration file is truthy; only the boolean False is not |
| Params.JobParms.constructor | bioflows/definedworkflows/rnaseq/rnaseqworkflow.py:212-215 | a new job-parameter dictionary holds exactly the given entries |
| Params.JobParms.Update | bioflows/bioflowsutils/wrappers.py:340-343 | `dict.update`: the given keys take the given values and every other key keeps its value |
| Params.JobParms.Copy | bioflows/definedworkflows/rnaseq/rnaseqworkflow.py:303 | the deep copy is a new dictionary with the same entries |
| Params.AbsPathFacts | bioflows/bioflowsutils/wrappers.py:284-289 | an absolute path is kept, and a relative one is resolved under the process directory and still ends with itself |
| BaseWrappers.SplitKeepsContains | bioflows/bioflowsutils/wrappers.py:129-131 | a separator-free text that occurs in a name occurs inside one of its '_'-fields, so the field search in `prog_name_clean` never comes up empty |
| BaseWrappers.SplitFindsContaining | bioflows/bioflowsutils/wrappers.py:129-131 | the search for the first field holding "round" finds one whenever the name holds "round" |
| BaseWrappers.SplitConcat | bioflows/bioflowsutils/wrappers.py:129 | splitting at a separator splits the two sides independently |
| BaseWrappers.ProgNameCleanFields | bioflows/bioflowsutils/wrappers.py:126-138 | a name without "round" is returned unchanged; otherwise no '_'-field of the result holds "round" |
| BaseWrappers.ProgNameCleanIdempotent | bioflows/bioflowsutils/wrappers.py:126-138 | cleaning a cleaned name changes nothing |
| BaseWrappers.ProgNameCleanFieldsAt | bioflows/bioflowsutils/wrappers.py:129-133 | the result is the '_'-join of the fields before the first one holding "round" |
| BaseWrappers.ProgNameCleanRound | bioflows/bioflowsutils/wrappers.py:126-138 | `<key>_round_<n>` is cleaned back to `<key>` when no field of the key holds "round" |
| BaseWrappers.ProgNameCleanOne | bioflows/bioflowsutils/wrappers.py:126-138 | `<word>_round<d>` is cleaned to the word |
| BaseWrappers.ProgNameCleanTwo | bioflows/bioflowsutils/wrappers.py:126-138 | `<word1>_<word2>_round<d>` is cleaned to `<word1>_<word2>` |
| BaseWrappers.ProgNameCleanFastqc | bioflows/test_rnaseq_workflow/test_baseWorkflow.py:23-24 | the unit test's expectation, "fastqc_round2" becomes "fastqc", holds for `prog_name_clean` |
| BaseWrappers.ProgNameCleanSamtools | bioflows/test_rnaseq_workflow/test_baseWorkflow.py:23-25 | the unit test's expectation, "samtools_view_round3" becomes "samtools_view", holds for `prog_name_clean` |
| BaseWrappers.ReplaceChar | bioflows/bioflowsutils/wrappers.py:163-174 | the result has the input's length and every character is kept except `a`, which becomes `b` |
| BaseWrappers.JoinSplitReplace | bioflows/bioflowsutils/wrappers.py:172 | joining the `c`-fields with `d` is replacing every `c` by `d` |
| BaseWrappers.JoinSplitCmdReplaces | bioflows/bioflowsutils/wrappers.py:163-174 | `join_split_cmd` keeps the length and turns every '_' into a space, every other character kept |
| BaseWrappers.SplitWsSpace | bioflows/bioflowsutils/wrappers.py:249 | whitespace splitting of two texts joined by a space gives the two token lists one after the other |
| BaseWrappers.NameCleanDrops | bioflows/bioflowsutils/wrappers.py:245-261 | when Xmx and -T are found and bqsr is not, the tokens are joined with '_' without the first one holding Xmx and then the first remaining one holding -T |
| BaseWrappers.FourWords | bioflows/bioflowsutils/wrappers.py:249 | the four words of a GATK name split back into those four tokens |
| BaseWrappers.GatkNameTokens | bioflows/bioflowsutils/wrappers.py:1063-1073 | the name the GATK wrapper builds has the tokens "gatk", "-Xmx<mem>M", "-T" and the tool |
| BaseWrappers.GatkNameTags | bioflows/bioflowsutils/wrappers.py:250-258 | the GATK name holds Xmx and -T and, for a tool without it, no bqsr |
| BaseWrappers.NameCleanSecondThird | bioflows/bioflowsutils/wrappers.py:245-261 | for four tokens whose second holds Xmx and third holds -T, the clean name is the first and last joined by '_' |
| BaseWrappers.NameCleanGatk | bioflows/bioflowsutils/wrappers.py:245-261 | the GATK name is cleaned to "gatk_<tool>" |
| BaseWrappers.NameCleanSharedToken | bioflows/bioflowsutils/wrappers.py:250-255 | `name_clean` raises IndexError when the only token holding -T also held Xmx and has been deleted |
| BaseWrappers.NameCleanCanFail | bioflows/bioflowsutils/wrappers.py:245-261 | for instance `name_clean` of "java -Xmx-T" raises |
| BaseWrappers.InitFacts | bioflows/bioflowsutils/wrappers.py:70-109 | after `init` the command is the name alone and the argument list is empty; the input, the target and add_args survive; the checkpoint is <cwd>/checkpoints/<target>; running `init` again with the same arguments changes nothing |
| BaseWrappers.InitTwice | bioflows/bioflowsutils/wrappers.py:70-109 | a second `init` with the same kwargs leaves nothing of the first one but the kept fields |
| BaseWrappers.InitKeepsLocalTarget | bioflows/bioflowsutils/wrappers.py:91-95 | a second `init` with local targets off keeps the local target set by the first |
| BaseWrappers.InitCheckpoints | bioflows/bioflowsutils/wrappers.py:89 | the checkpoint is <cwd>/checkpoints/<target> for a relative target |
| BaseWrappers.ThreadingArgs | bioflows/bioflowsutils/wrappers.py:140-151 | nothing is added for at most one thread; otherwise the flag and then the thread count |
| BaseWrappers.SetupRunState | bioflows/bioflowsutils/wrappers.py:263-300 | `setup_run` that does not raise always sets the run command |
| BaseWrappers.SetupRunKeeps | bioflows/bioflowsutils/wrappers.py:263-300 | `setup_run` only appends to the arguments and sets the run command; every other field is kept |
| BaseWrappers.StderrRules | bioflows/bioflowsutils/wrappers.py:268-274 | a one-word name logs to log_dir/<input>_<name>_err.log unless an explicit stderr is given; a name of several words always logs to log_dir/<input>_<name_clean()>_err.log; only `name_clean` can make this raise |
| BaseWrappers.SetupRunOneWord | bioflows/bioflowsutils/wrappers.py:263-300 | for a one-word name without explicit stderr, the stderr log under log_dir comes first and stdout follows it |
| BaseWrappers.StdoutRules | bioflows/bioflowsutils/wrappers.py:282-290 | a non-empty stdout truncates its absolute path; otherwise a non-empty stdout_append appends to its absolute path; otherwise stdout joins the stderr log |
| BaseWrappers.RunCommandShape | bioflows/bioflowsutils/wrappers.py:263-300 | the run command is the command and its arguments, then the stderr redirect, then the stdout redirect, then "; " and the extra command when one is given |
| BaseWrappers.Wrapper.constructor | bioflows/bioflowsutils/wrappers.py:325-326 | a new wrapper object holds only its input |
| BaseWrappers.Wrapper.Init | bioflows/bioflowsutils/wrappers.py:70-109 | the object's fields become what `init` computes from the old fields, the name and the kwargs |
| BaseWrappers.Wrapper.SetupCommand | bioflows/bioflowsutils/wrappers.py:176-192 | with no command given, the command becomes the one-word list of the program name; a command given as text becomes its whitespace-separated words; nothing else changes |
| BaseWrappers.Wrapper.AddThreading | bioflows/bioflowsutils/wrappers.py:140-151 | the threading arguments are appended and nothing else changes |
| BaseWrappers.Wrapper.SetupRun | bioflows/bioflowsutils/wrappers.py:263-300 | the object becomes the `setup_run` result, or is left unchanged with the same exception when that raises |
| Tools.ProfileUpdate | bioflows/bioflowsutils/wrappers.py:340-343 | the update is the caller's add_job_parms for a custom job and the tool's own profile otherwise; it raises exactly when job_parms is missing, or add_job_parms for a custom job |
| Tools.Start | bioflows/bioflowsutils/wrappers.py:325-336 | a new wrapper object whose fields are those after the constructor's `init` calls and `add_threading` |
| Tools.Complete | bioflows/bioflowsutils/wrappers.py:336-366 | the wrapper ends as the rest of the constructor computes, or is left with the exception it raises |
| Tools.Build | bioflows/bioflowsutils/wrappers.py:318-1241 | a new wrapper whose fields end as the constructor computes them; when the update itself succeeds, job_parms gain it in place, otherwise they keep their entries |
| Tools.FastQCPlan | bioflows/bioflowsutils/wrappers.py:318-366 | the target names the zip, of the second file when paired-end; the plan follows the profile rule (mem 1000, time 80, ncpus 1) |
| Tools.GsnapPlan | bioflows/bioflowsutils/wrappers.py:367-411 | the target is the sample's and the plan follows the profile rule |
| Tools.SamToBamPlan | bioflows/bioflowsutils/wrappers.py:428-450 | the target is the sample's and the plan follows the profile rule |
| Tools.BamToMappedBamPlan | bioflows/bioflowsutils/wrappers.py:451-474 | the target is the sample's and the plan follows the profile rule |
| Tools.BamToUnmappedBamPlan | bioflows/bioflowsutils/wrappers.py:475-498 | the target is the sample's and the plan follows the profile rule |
| Tools.SamToolsSortPlan | bioflows/bioflowsutils/wrappers.py:499-525 | the target is the sample's and the plan follows the profile rule |
| Tools.SamIndexPlan | bioflows/bioflowsutils/wrappers.py:526-546 | the target is the sample's and the plan follows the profile rule |
| Tools.BiobambamMarkDupPlan | bioflows/bioflowsutils/wrappers.py:547-572 | the target is the sample's and the plan follows the profile rule |
| Tools.QualiMapPlan | bioflows/bioflowsutils/wrappers.py:617-657 | the target is the sample's report and the plan follows the profile rule (mem 10000, time 80, ncpus 8) |
| Tools.SalmonCountsPlan | bioflows/bioflowsutils/wrappers.py:659-700 | the target is the sample's and the plan follows the profile rule |
| Tools.HtSeqCountsPlan | bioflows/bioflowsutils/wrappers.py:701-734 | when it does not raise, the target is the sample's and the plan follows the profile rule (mem 10000, time 80, ncpus 2) |
| Tools.HtSeqNeedsExpressionDir | bioflows/bioflowsutils/wrappers.py:716-717 | htseq-count raises whenever expression_dir is missing from the kwargs |
| Tools.BwaPlan | bioflows/bioflowsutils/wrappers.py:736-781 | the target is the sample's and the plan follows the profile rule |
| Tools.BedtoolsCountsPlan | bioflows/bioflowsutils/wrappers.py:782-800 | bedtools keeps the caller's job_parms and writes nothing into them; its target is the sample's |
| Tools.TrimmomaticPlan | bioflows/bioflowsutils/wrappers.py:849-894 | Trimmomatic keeps the caller's target and follows the profile rule |
| Tools.PicardPlan | bioflows/bioflowsutils/wrappers.py:895-1030 | when it does not raise, the target is the one `make_target` picks for the subcommand and the plan follows the profile rule |
| Tools.GatkPlan | bioflows/bioflowsutils/wrappers.py:1031-1241 | when it does not raise, the target is the one `make_target` picks for the tool (and a "-BQSR" argument) and the plan follows the profile rule |
| Tools.ToolPlan | bioflows/bioflowsutils/wrappers.py:318-1241 | every constructor keeps the caller's job_parms object and sets the target its rule says; every tool but bedtools follows the profile rule, and bedtools writes no job parameters |
| ToolFacts.FitsParms | bioflows/bioflowsutils/wrappers.py:340-343 | under the profile rule, job_parms end as the old entries overwritten by the tool's defaults, or by add_job_parms for a custom job; a missing job_parms or add_job_parms leaves them and makes the constructor raise |
| ToolFacts.ToolParmsAfter | bioflows/bioflowsutils/wrappers.py:318-1241 | after any constructor but bedtools', job_parms hold the defaults or the custom values written over the old entries, or the old entries when the update raised |
| ToolFacts.TargetOfSample | bioflows/bioflowsutils/wrappers.py:318-800 | two runs of one tool on one sample get the same checkpoint target, whatever their other arguments and kwargs, for every tool whose target comes from the sample alone |
| ToolFacts.SampleTargetRule | bioflows/bioflowsutils/wrappers.py:318-800 | such a tool sets exactly the sample's target |
| ToolFacts.SampleTargetTools | bioflows/bioflowsutils/wrappers.py:318-1241 | exactly FastQC, Trimmomatic, Picard and GATK set a target that is not the sample's alone |
| ToolFacts.TrimmomaticTarget | bioflows/bioflowsutils/wrappers.py:849-894 | Trimmomatic sets no target and keeps the caller's |
| ToolFacts.RunCheckpoint | bioflows/bioflowsutils/wrappers.py:89-96 | a finished wrapper's checkpoint is <cwd>/checkpoints/<target> and, with local targets on, <luigi_local_path>/<target> |
| ToolFacts.GsnapThreads | bioflows/bioflowsutils/wrappers.py:381-386 | a custom ncpus given to gsnap becomes the leading " -t <ncpus>"; otherwise there is none |
| ToolFacts.BwaThreads | bioflows/bioflowsutils/wrappers.py:750-756 | BWA gets " -t <ncpus>" from a custom ncpus, "-t 12" by default, and no thread argument for a custom job without ncpus |
| ToolFacts.SortDropsThreads | bioflows/bioflowsutils/wrappers.py:504-525 | samtools sort loses its thread argument: its arguments are the same whatever custom profile is given |
| ToolFacts.TrimmomaticThreads | bioflows/bioflowsutils/wrappers.py:860-870 | Trimmomatic doubles a custom ncpus into " -threads <2n>" and uses 8 threads by default |
| ToolFacts.GatkSingleInit | bioflows/bioflowsutils/wrappers.py:1044-1073 | GATK's first `init` leaves no trace: the started wrapper is the one a single `init` gives |
| ToolFacts.GatkFields | bioflows/bioflowsutils/wrappers.py:1048 | "gatk_<Tool>" has no round suffix and splits into "gatk" and the tool |
| ToolFacts.GatkProgramIs | bioflows/bioflowsutils/wrappers.py:1069-1073 | the heap flag and "-T" inserted after "gatk" give the GATK name |
| ToolFacts.GatkProgramName | bioflows/bioflowsutils/wrappers.py:1044-1090 | on "gatk_<Tool>" the program is "gatk", the heap flag, "-T" and the tool, so `name_clean` gives "gatk_<Tool>" back for the stderr log |
| ToolFacts.SingleRun | bioflows/bioflowsutils/wrappers.py:263-300 | a plan with one `init`, no threading and no second command runs the program, its arguments, the stderr and the stdout redirects joined by spaces, then "; " and the extra command |
| ToolFacts.GsnapCommand | bioflows/test_wrappers/test_wrappers.py:33-52 | the paired-end gsnap command has the shape the unit test asserts: the custom thread count, the fixed options, the user's options, both read files, the stderr log and the truncating stdout redirect |
| ToolFacts.BiobambamCommand | test_wrappers/test_wrappers.py:83-98 | the bammarkduplicates2 command has the shape the unit test asserts: index=0, the sorted BAM in, the marked BAM out, the metrics file, then the redirects |
| ToolFacts.QualiMapCommand | bioflows/test_wrappers/test_wrappers_misc.py:127-144 | the qualimap bamqc command has the token sequence the unit test asserts: "qualimap", the default heap flag, the mode, the user's options, the BAM and the output directory, the redirects, then the copy of the report |
| ToolFacts.ChainedRun | bioflows/bioflowsutils/wrappers.py:344-358 | a plan that threads with at most one thread and chains a second command gives two command lines with the same redirects, joined by "; " |
| ToolFacts.InitRun | bioflows/bioflowsutils/wrappers.py:263-300 | one command line of a one-word program without explicit stderr is the program, the arguments and the two redirects |
| ToolFacts.GsnapShape | bioflows/bioflowsutils/wrappers.py:373-411 | a paired-end gsnap plan with a custom thread count has the sample's target, " -t <ncpus>" first, the fixed options, the user's options and both read files |
| ToolFacts.BiobambamShape | bioflows/bioflowsutils/wrappers.py:547-572 | a bammarkduplicates2 plan with the default profile reads the sorted BAM, writes the marked BAM and the metrics file, and chains nothing |
| ToolFacts.QualiMapShape | bioflows/bioflowsutils/wrappers.py:626-656 | a QualiMap plan in a mode other than rnaseq runs "qualimap" with the default heap flag and the mode, and copies the report afterwards |
| ToolFacts.FastQCShape | bioflows/bioflowsutils/wrappers.py:325-366 | a paired-end FastQC plan with the default profile runs fastqc with the QC directory on the first read file, then on the second |
| ToolFacts.FastQCCommand | bioflows/test_wrappers/test_wrappers_misc.py:35-54 | the paired-end FastQC command has the token sequence the unit test asserts: one fastqc run per read file, each with the QC directory, the stderr log and the appending stdout log, chained with "; " |
| NewWrappers.Declared | bioflows/bioflowsutils/new_wrappers.py:238-254 | a side declared other than "default" is taken as declared; "default" takes the tool's default, and exits when there is none |
| NewWrappers.FileSuffixStandard | bioflows/bioflowsutils/new_wrappers.py:228-240 | outside custom mode both defaults are taken exactly when both are given; otherwise the run exits with the message naming the missing side, or both |
| NewWrappers.FileSuffixCustom | bioflows/bioflowsutils/new_wrappers.py:241-254 | in custom mode each side is the declared value or the default for "default"; it fails exactly when a "default" side has no default, and a missing output is reported before a missing input |
| NewWrappers.NewTargetInjective | bioflows/bioflowsutils/new_wrappers.py:331-335 | with digests of one fixed length, two targets are equal exactly when their input, name and output suffix are |
| NewWrappers.NewCheckpoint | bioflows/bioflowsutils/new_wrappers.py:66-73 | the target is <work_dir>/checkpoints/<target>; a local target exists exactly when local targets are on, under luigi_local_path |
| NewWrappers.NewCheckpointIsBase | bioflows/bioflowsutils/new_wrappers.py:66-73 | the newer checkpoint is BaseWrapper's with work_dir in the place of cwd, and the same when the two are equal |
| NewWrappers.SuffixFields.constructor | bioflows/bioflowsutils/wrappers_samtools.py:16-25 | a new family object starts from empty suffixes and add_args and with no target or stdout attribute, since the family classes declare none |
| NewWrappers.SuffixFields.UpdateFileSuffix | bioflows/bioflowsutils/new_wrappers.py:214-255 | the suffixes become the resolved ones and nothing else changes, or the run exits with that message and a side already set in custom mode stays set |
| NewWrappers.SuffixFields.ResetAddArgs | bioflows/bioflowsutils/new_wrappers.py:257-265 | add_args become empty and nothing else changes |
| NewWrappers.SuffixFields.MakeTarget | bioflows/bioflowsutils/new_wrappers.py:331-335 | only the target changes, to the one named by input, name and output suffix |
| NewWrappers.UpdateDefaultArgs | bioflows/bioflowsutils/new_wrappers.py:267-297 | the result is the user's arguments and the appended defaults joined by spaces |
| NewWrappers.MergeNoArgs | bioflows/bioflowsutils/new_wrappers.py:285-286 | with no user arguments no default is ever added, because `any` over an empty list is false |
| NewWrappers.MergeKeepsArgs | bioflows/bioflowsutils/new_wrappers.py:280-297 | the user's arguments come first and unchanged; every later element is the text of a default |
| NewWrappers.Texts | bioflows/bioflowsutils/new_wrappers.py:286 | one text per default, in table order |
| NewWrappers.MergeAllWhenOneLacks | bioflows/bioflowsutils/new_wrappers.py:285-287 | a single user argument holding none of the default texts makes every default appended, even one another argument already gives |
| NewWrappers.MergeNoneWhenAllContain | bioflows/bioflowsutils/new_wrappers.py:285-295 | when every user argument already holds every default text, nothing is appended |
| NewWrappers.ChainNotImported | bioflows/bioflowsutils/new_wrappers.py:197-211 | as written, `setup_run` never produces a command line, because `chain` is not imported in the module |
| NewWrappers.NewSetupRunIsBase | bioflows/bioflowsutils/new_wrappers.py:197-211 | with `chain` imported, `setup_run` builds the command line BaseWrapper's builds from the same arguments, without the redirects |
| PicardTools.ParseSub | bioflows/bioflowsutils/wrappers_picard.py:78-148 | a recognised field names that subcommand |
| PicardTools.ParseSubName | bioflows/bioflowsutils/wrappers_picard.py:78-148 | every subcommand of the table is recognised by its own name, so the dispatch misses none |
| PicardTools.PicardTargetKeys | bioflows/bioflowsutils/wrappers_picard.py:78-148 | the checkpoint key of each subcommand: out_suffix for CollectWgsMetrics and AddOrReplaceReadGroups, in_suffix and ".bai" for BuildBamIndex, in_suffix for SamToFastq, the fixed 'mark_dup_picard.txt' for MarkDuplicates, ".txt" added to the hashed key of the two quality charts, and the sample and step alone for the four other metrics |
| PicardTools.InputArg | bioflows/bioflowsutils/wrappers_picard.py:204 | the INPUT argument is the input file under align_dir, and it fails exactly when align_dir is not given |
| PicardTools.AlignmentSummaryArgs | bioflows/bioflowsutils/wrappers_picard.py:151-158 | it fails exactly when align_dir, qc_dir or the reference is missing; otherwise INPUT comes first and the user's arguments last |
| PicardTools.GcBiasArgs | bioflows/bioflowsutils/wrappers_picard.py:159-169 | it fails exactly when align_dir, qc_dir or the reference is missing; otherwise INPUT comes first and the user's arguments last |
| PicardTools.InsertSizeArgs | bioflows/bioflowsutils/wrappers_picard.py:170-179 | it fails exactly when align_dir, qc_dir or the reference is missing; otherwise INPUT comes first and the user's arguments last |
| PicardTools.HsArgs | bioflows/bioflowsutils/wrappers_picard.py:180-190 | it fails exactly when align_dir, qc_dir or the reference is missing; otherwise INPUT comes first and the user's arguments last |
| PicardTools.WgsArgs | bioflows/bioflowsutils/wrappers_picard.py:191-200 | it fails exactly when align_dir, qc_dir or the reference is missing; otherwise INPUT comes first and the user's arguments last |
| PicardTools.QualityArgs | bioflows/bioflowsutils/wrappers_picard.py:212-222 | it fails exactly when align_dir, qc_dir or the reference is missing; otherwise INPUT comes first and the user's arguments last |
| PicardTools.MeanQualityArgsAsWritten | bioflows/bioflowsutils/wrappers_picard.py:201-210 | as written, the arguments of MeanQualityByCycle can never be built |
| PicardTools.MeanQualityAlwaysFails | bioflows/bioflowsutils/wrappers_picard.py:205 | the unary plus on a string always raises TypeError, while the intended arguments exist whenever the directories are given |
| PicardTools.ReadGroupArgs | bioflows/bioflowsutils/wrappers_picard.py:223-234 | it fails exactly when align_dir is missing; otherwise INPUT comes first and the user's arguments last |
| PicardTools.MarkDupArgs | bioflows/bioflowsutils/wrappers_picard.py:235-255 | it fails exactly when align_dir or qc_dir is missing; otherwise INPUT comes first, OUTPUT names the rewritten suffix and the user's arguments come last |
| PicardTools.LenientArgs | bioflows/bioflowsutils/wrappers_picard.py:256-272 | it fails exactly when align_dir is missing; otherwise INPUT comes first and the user's arguments last |
| PicardTools.MetricsArgs | bioflows/bioflowsutils/wrappers_picard.py:82-148 | a metric's arguments fail exactly when it is MeanQualityByCycle, or align_dir, qc_dir or the reference is missing; MeanQualityByCycle with align_dir given raises the unary-plus TypeError |
| PicardTools.RewriteArgs | bioflows/bioflowsutils/wrappers_picard.py:101-121 | a rewriting subcommand's arguments fail exactly when align_dir is missing, or qc_dir for MarkDuplicates |
| PicardTools.PicardArgs | bioflows/bioflowsutils/wrappers_picard.py:78-148 | a subcommand's arguments fail exactly when it is MeanQualityByCycle (the unary-plus TypeError once align_dir is given) or a directory or the reference it needs is missing; otherwise INPUT opens them and the user's arguments close them |
| PicardTools.PicardMakeTarget | bioflows/bioflowsutils/wrappers_picard.py:69-149 | the wrapper's fields become what `make_target` computes, or the call fails with its message (for MeanQualityByCycle, the as-written TypeError) |
| PicardTools.PicardMarkDuplicates | bioflows/bioflowsutils/wrappers_picard.py:97-101 | out_suffix gains ".dedup" exactly when "REMOVE_DUPLICATES=true" is one of the arguments and ".picdup" otherwise; OUTPUT names the rewritten suffix while the target keeps the fixed key |
| PicardTools.PicardStandardSuffixes | bioflows/bioflowsutils/wrappers_picard.py:78-148 | outside custom mode a known subcommand takes its table's suffixes (MarkDuplicates then prefixes its output), its arguments open with INPUT and end with the user's arguments, and a target is set |
| PicardTools.GcBiasChart | bioflows/bioflowsutils/wrappers_picard.py:159-169 | CHART replaces ".txt" in out_suffix by "_plots.pdf"; an out_suffix without ".txt" makes CHART the same file as OUTPUT |
| PicardTools.DerivedOutputs | bioflows/bioflowsutils/wrappers_picard.py:170-190 | the histogram and the per-target coverage follow the same rule with their own ending |
| PicardTools.NewPicard | bioflows/bioflowsutils/wrappers_picard.py:28-67 | the wrapper object is the one the plan describes and `job_parms` receive the profile's update; a failing `make_target` (among them MeanQualityByCycle's TypeError) raises before `job_parms` are touched |
| PicardTools.PicardDefaultProfile | bioflows/bioflowsutils/wrappers_picard.py:34-61 | prog_id is the name as given, the round-stripped name runs with `make_target`'s target, and the default profile is mem 10000, time 80 and ncpus 4, with a 10000M heap flag before the subcommand's arguments |
| PicardTools.PicardCustomProfile | bioflows/bioflowsutils/wrappers_picard.py:47-56 | a custom profile is the caller's, with a heap flag only when it gives mem |
| PicardTools.PicardMeanQualityRaises | bioflows/bioflowsutils/wrappers_picard.py:200-206 | a MeanQualityByCycle wrapper cannot be constructed: once its suffixes resolve and align_dir is given, the constructor raises the unary-plus TypeError |
| PicardTools.PicardUnknownSubcommand | bioflows/bioflowsutils/wrappers_picard.py:42-44 | a subcommand outside the table sets no target, so the constructor raises AttributeError |
| GatkTools.ParseWalker | bioflows/bioflowsutils/wrappers_gatk.py:84-133 | a recognised field names that walker |
| GatkTools.ParseWalkerName | bioflows/bioflowsutils/wrappers_gatk.py:84-133 | every walker of the table is recognised by its own name |
| GatkTools.GatkTargetIsBase | bioflows/bioflowsutils/wrappers_gatk.py:83-133 | the checkpoint is the base rule on out_suffix, or on "post" plus out_suffix for a BaseRecalibrator run that reads a table back; with digests of one fixed length the two BaseRecalibrator targets never coincide |
| GatkTools.TargetCreatorArgs | bioflows/bioflowsutils/wrappers_gatk.py:136-154 | it fails exactly when align_dir, gatk_dir or the reference is missing; otherwise three fixed arguments and then the user's |
| GatkTools.RealignerArgs | bioflows/bioflowsutils/wrappers_gatk.py:155-175 | it fails exactly when align_dir, gatk_dir or the reference is missing; otherwise four fixed arguments and then the user's |
| GatkTools.RecalibratorArgs | bioflows/bioflowsutils/wrappers_gatk.py:176-219 | it fails exactly when align_dir, gatk_dir or the reference is missing |
| GatkTools.PrintReadsArgs | bioflows/bioflowsutils/wrappers_gatk.py:221-238 | it fails exactly when align_dir, gatk_dir or the reference is missing |
| GatkTools.CallerArgs | bioflows/bioflowsutils/wrappers_gatk.py:239-263 | it fails exactly when align_dir, gatk_dir or the reference is missing; otherwise the user's arguments sit between the fixed ones and the output |
| GatkTools.CovariatesArgs | bioflows/bioflowsutils/wrappers_gatk.py:264-273 | it fails exactly when gatk_dir or the reference is missing |
| GatkTools.GatkArgs | bioflows/bioflowsutils/wrappers_gatk.py:84-133 | a walker's arguments fail exactly when a directory or the reference it needs is missing |
| GatkTools.GatkMakeTarget | bioflows/bioflowsutils/wrappers_gatk.py:82-134 | the wrapper's fields become what `make_target` computes, or the call fails with its message |
| GatkTools.RecalibrationRound | bioflows/bioflowsutils/wrappers_gatk.py:200-211 | with an exact "-BQSR" argument the first argument holding "-BQSR" is removed and every other kept in order, the table out_suffix names is read back with -BQSR, and the output goes to "_post" plus out_suffix, under "-O" for gatk4 and "-o" otherwise |
| GatkTools.RecalibrationFirst | bioflows/bioflowsutils/wrappers_gatk.py:212-217 | without "-BQSR" the user's arguments are kept whole and the table is written to out_suffix |
| GatkTools.FixedArgumentWalkers | bioflows/bioflowsutils/wrappers_gatk.py:221-273 | PrintReads and AnalyzeCovariates build the same arguments whatever the user passes |
| GatkTools.GatkStdout | bioflows/bioflowsutils/wrappers_gatk.py:82-134 | every walker that resolves suffixes logs to log_dir/<input>_<prog_id>.log, and a missing log_dir raises KeyError once the suffixes are resolved |
| GatkTools.NewGatk | bioflows/bioflowsutils/wrappers_gatk.py:22-80 | the wrapper object is the one the plan describes and `job_parms` receive the profile's update; a failing `make_target` (among them MeanQualityByCycle's TypeError) raises before `job_parms` are touched |
| GatkTools.GatkConstructor | bioflows/bioflowsutils/wrappers_gatk.py:22-80 | prog_id is the name as given and stdout its log file; the wrapper is first initialised from the stripped name and then, unless the first field is "gatk4", again with the heap flag (10000M by default) and "-T" after the first field; the default profile is mem 10000, time 80 and ncpus 4 |
| GatkTools.GatkMissingFields | bioflows/bioflowsutils/wrappers_gatk.py:32-34 | an unknown walker leaves no target and VariantRecalibrator no stdout, so the constructor raises AttributeError |
| SamToolsFamily.ParseSamSub | bioflows/bioflowsutils/wrappers_samtools.py:72-87 | a recognised field names that subcommand, and only "view", "sort" and "index" are recognised |
| SamToolsFamily.ParseSamSubName | bioflows/bioflowsutils/wrappers_samtools.py:72-87 | every subcommand is recognised by its own name |
| SamToolsFamily.SamSuffixes | bioflows/bioflowsutils/wrappers_samtools.py:59-70 | only a "custom" suffix_type is accepted, and any other exits with the output-suffix message; out_suffix is the declared output and in_suffix the declared input, "default" included |
| SamToolsFamily.DefaultBam | bioflows/bioflowsutils/wrappers_samtools.py:101-102 | an in_suffix never stays "default": an undeclared one becomes ".bam" and a declared one is kept |
| SamToolsFamily.ViewArgs | bioflows/bioflowsutils/wrappers_samtools.py:90-98 | an undeclared input suffix exits; otherwise the user's arguments follow the earlier add_args in order, then "-o" and the output file, then the input file, both under align_dir |
| SamToolsFamily.TmpDirRewrite | bioflows/bioflowsutils/wrappers_samtools.py:105-108 | the arguments keep their number and order; the first one holding "-T" gets "_<input>" appended and every other is unchanged |
| SamToolsFamily.SortTmpDir | bioflows/bioflowsutils/wrappers_samtools.py:105-108 | the rewrite changes something exactly when some argument holds "-T", and then only the first such argument, which still holds the flag |
| SamToolsFamily.SortArgs | bioflows/bioflowsutils/wrappers_samtools.py:100-112 | in_suffix falls back to ".bam"; the user's arguments follow the earlier add_args with the temporary-directory rewrite, then "-o" and the output file, then the input file |
| SamToolsFamily.IndexFlags | bioflows/bioflowsutils/wrappers_samtools.py:117-121 | corrected: "-b" is put in front of the user's arguments exactly when none of them already picks a format, so the result always picks one |
| SamToolsFamily.IndexFlagsAsWritten | bioflows/bioflowsutils/wrappers_samtools.py:117-121 | as written, "-b" is put in front exactly when there is at least one user argument, because `"-b" or ...` is always true |
| SamToolsFamily.IndexFlagsDiffer | bioflows/bioflowsutils/wrappers_samtools.py:117 | with no argument the command as written picks no format at all, and with "-c" it is given "-b" as well |
| SamToolsFamily.IndexArgs | bioflows/bioflowsutils/wrappers_samtools.py:114-126 | in_suffix falls back to ".bam"; the format flag as written ("-b" exactly when there is a user argument) and the user's arguments follow the earlier add_args, then the input file, then the output file unless out_suffix is "default" |
| SamToolsFamily.IndexTargetIsBase | bioflows/bioflowsutils/wrappers_samtools.py:84-86 | the index checkpoint is the common target on in_suffix and ".bai", with one '.' inserted after its key and the digest taken without it |
| SamToolsFamily.SamMakeTarget | bioflows/bioflowsutils/wrappers_samtools.py:59-88 | the wrapper's fields become what `make_target` computes, index's format flag as written, or the call fails with its message |
| SamToolsFamily.SamTargets | bioflows/bioflowsutils/wrappers_samtools.py:72-87 | view and sort name the common target of the output suffix, index that of the declared input suffix with ".bai"; the fields keep the declared suffixes, with the ".bam" fallback for sort and index |
| SamToolsFamily.SamUnknownSubcommand | bioflows/bioflowsutils/wrappers_samtools.py:25-26 | a subcommand other than view, sort and index sets no target, so the constructor raises AttributeError |
| SamToolsFamily.FloorDiv | bioflows/bioflowsutils/wrappers_samtools.py:47 | Python 2 integer division rounds toward negative infinity: the remainder has the divisor's sign |
| SamToolsFamily.PyDiv | bioflows/bioflowsutils/wrappers_samtools.py:47 | the division succeeds exactly for two numbers (booleans counting as 0 and 1) with a non-zero divisor, and is then the floor quotient |
| SamToolsFamily.SortThreadsMem | bioflows/bioflowsutils/wrappers_samtools.py:41-51 | both memory branches read the same value: the flags are the thread count and the updated job_parms' mem divided by it and rounded down, and a missing mem or zero threads raises |
| SamToolsFamily.SortThreadsNone | bioflows/bioflowsutils/wrappers_samtools.py:37-51 | outside a custom sort with ncpus no flag is added |
| SamToolsFamily.NewSamTools | bioflows/bioflowsutils/wrappers_samtools.py:22-57 | the wrapper object is the one the plan describes (index with the as-written format flag) and `job_parms` receive the profile's update; a failing `make_target` or a missing log_dir raises before `job_parms` are touched |
| SamToolsFamily.SamDefaultProfile | bioflows/bioflowsutils/wrappers_samtools.py:25-56 | prog_id and the stdout log keep the name as given, the round-stripped name runs split into words, and by default the profile is mem 4000, time 300 and ncpus 1 with add_args as the only arguments |
| SamToolsFamily.SamCustomProfile | bioflows/bioflowsutils/wrappers_samtools.py:37-55 | a custom profile is the caller's, and the sort flags come before add_args |
| SamToolsFamily.NameCleanTwoWords | bioflows/bioflowsutils/wrappers.py:245-261 | two words without the Xmx, -T and bqsr tags split into two tokens and are cleaned to the words joined by '_' |
| SamToolsFamily.TwoWordRun | bioflows/bioflowsutils/wrappers.py:263-300 | for a two-word name the stderr log is named after the words joined by '_', whatever stderr says |
| SamToolsFamily.TwoFieldName | bioflows/bioflowsutils/wrappers_samtools.py:32-34 | a two-field name without "round" keeps its fields, is its own clean name and runs as its two words |
| SamToolsFamily.SortMake | bioflows/bioflowsutils/wrappers_samtools.py:78-82 | a sort step with no arguments writes "-o" and the output file, then the input file, and names the common target |
| SamToolsFamily.SortShape | bioflows/bioflowsutils/wrappers_samtools.py:22-57 | outside custom mode the program of a sort step with no arguments is the two words of its name and its arguments are the output and input files the suffixes name |
| SamToolsFamily.SortCommandWords | bioflows/bioflowsutils/wrappers_samtools.py:22-57 | the command line of a two-word sort step with no arguments is the program, "-o" and the output file, the input file, the stderr log named after the step and stdout truncated to log_dir/<input>_<name>.log |
| SamToolsFamily.SortRun | bioflows/bioflowsutils/wrappers.py:263-300 | a plan shaped like a sort step's gives that command line, whatever produced it |
| SamToolsFamily.SortCommand | bioflows/test_wrappers/test_wrappers_samtools.py:23-32 | for "samtools_sort" and any directories and suffixes, the command line has the shape the unit test asserts: "samtools sort -o <align>/<s><out> <align>/<s><in> 2>><log>/<s>_samtools_sort_err.log 1><log>/<s>_samtools_sort.log" |
| QiimeTools.SplitWsContains | bioflows/bioflowsutils/wrappers_qiime2.py:173 | every whitespace token of an argument occurs in it |
| QiimeTools.TokensFound | bioflows/bioflowsutils/wrappers_qiime2.py:176-179 | a key that is a token of the arguments occurs in one of them, so the index list at line 179 is never empty |
| QiimeTools.TokensNoSpace | bioflows/bioflowsutils/wrappers_qiime2.py:173 | no token holds whitespace |
| QiimeTools.JoinVal | bioflows/bioflowsutils/wrappers_qiime2.py:177 | joining a default onto qiime_dir raises exactly when qiime_dir is missing or the value is not text |
| QiimeTools.FoldSucceeds | bioflows/bioflowsutils/wrappers_qiime2.py:170-187 | the loop succeeds exactly when every default meets its needs (a qiime_dir and a text value, unless its key is present and not a file key), and then `tmp_args` has as many entries as the user's arguments |
| QiimeTools.Absent | bioflows/bioflowsutils/wrappers_qiime2.py:176 | no more absent defaults than defaults |
| QiimeTools.FoldMissing | bioflows/bioflowsutils/wrappers_qiime2.py:176-177 | the lines added to add_args are one per absent default in order: its key, a space and its value under qiime_dir |
| QiimeTools.Hits | bioflows/bioflowsutils/wrappers_qiime2.py:178-182 | no more hits than defaults |
| QiimeTools.StepRewrites | bioflows/bioflowsutils/wrappers_qiime2.py:178-182 | one default rewrites argument j when it hits it and leaves it otherwise |
| QiimeTools.FoldRewrites | bioflows/bioflowsutils/wrappers_qiime2.py:170-187 | `tmp_args` keeps the order and number of the arguments; each argument is rewritten by the defaults that hit it, in order, and one that no default hits is returned untouched |
| QiimeTools.Untouched | bioflows/bioflowsutils/wrappers_qiime2.py:170-187 | an argument no default hits comes back as the user wrote it |
| QiimeTools.SpacedKeyAlwaysAdded | bioflows/bioflowsutils/wrappers_qiime2.py:173-177 | a key holding whitespace is never a token, so its default is always added |
| QiimeTools.FoldPrefixFails | bioflows/bioflowsutils/wrappers_qiime2.py:175-185 | once the loop raises on some default, the whole loop raises the same exception |
| QiimeTools.UpdateQiimeArgs | bioflows/bioflowsutils/wrappers_qiime2.py:170-187 | add_args gain the absent defaults' lines and the returned list is the rewritten arguments, or the exception of the loop |
| QiimeTools.ParsePlugin | bioflows/bioflowsutils/wrappers_qiime2.py:57-158 | a recognised field names that plugin |
| QiimeTools.ParseQSub | bioflows/bioflowsutils/wrappers_qiime2.py:57-166 | a recognised subcommand field names that subcommand of that plugin |
| QiimeTools.QSubNameParses | bioflows/bioflowsutils/wrappers_qiime2.py:57-166 | every plugin and every subcommand under its plugin is recognised by its own name |
| QiimeTools.QiimeDispatch | bioflows/bioflowsutils/wrappers_qiime2.py:55-168 | the subcommand a name selects belongs to the plugin and the subcommand its second and third fields name |
| QiimeTools.UnknownSubcommandExits | bioflows/bioflowsutils/wrappers_qiime2.py:55-168 | a known plugin with an unknown subcommand exits with its plugin's message, except tools, which sets nothing; dada2 denoise-pyro exits as not implemented |
| QiimeTools.RemoveSuffix | bioflows/bioflowsutils/wrappers_qiime2.py:346 | the suffix is removed exactly when the text ends with it |
| QiimeTools.EmperorNameStem | bioflows/bioflowsutils/wrappers_qiime2.py:345-348 | the intended name keeps the pcoa path's directory and stem, with '_' written as '-' |
| QiimeTools.StripKeepsFirst | bioflows/bioflowsutils/wrappers_qiime2.py:346 | stripping a run of set characters in front of a character outside the set leaves that character first |
| QiimeTools.EndingChars | bioflows/bioflowsutils/wrappers_qiime2.py:346 | the characters of "_pcoa_results.qza" include those of "core" but not '-' |
| QiimeTools.EmperorNameDiffers | bioflows/bioflowsutils/wrappers_qiime2.py:342-348 | on the default pcoa path the name as written loses the leading "core" of its directory and starts with '-', while the intended name starts with 'c' |
| QiimeTools.PhylogenyQuirk | bioflows/bioflowsutils/wrappers_qiime2.py:109-114 | the plugin is handed the sample name for its subcommand, so for any sample not named like the subcommand the table is empty, the user's arguments are kept as given and nothing is added |
| QiimeTools.PlotDefaultName | bioflows/bioflowsutils/wrappers_qiime2.py:339-348 | the emperor plot's fourth default is --o-visualization with the name as written, which starts with '-' and differs from the intended name |
| QiimeTools.PhylogenySpacedKey | bioflows/bioflowsutils/wrappers_qiime2.py:268-276 | when the table is used, its first key starts with two spaces and its default is always added |
| QiimeTools.NumericDefaultRaises | bioflows/bioflowsutils/wrappers_qiime2.py:176-177 | a numeric default the user leaves out cannot be joined onto qiime_dir and makes the loop raise |
| QiimeTools.DenoisePairedNeedsThreads | bioflows/bioflowsutils/wrappers_qiime2.py:243-253 | denoise-paired with no user argument raises |
| QiimeTools.QiimeTargetInjective | bioflows/bioflowsutils/wrappers_qiime2.py:60-162 | with digests of one fixed length, two targets are equal exactly when their <input>_<name> keys are |
| QiimeTools.QiimeMakeArgs | bioflows/bioflowsutils/wrappers_qiime2.py:55-168 | on the defaults as written (the emperor plot's stripped name included), a known subcommand leaves the earlier add_args, the absent defaults' lines, then as many arguments as the user gave, each rewritten only by the defaults that hit it |
| QiimeTools.QiimeMakeTarget | bioflows/bioflowsutils/wrappers_qiime2.py:55-168 | the wrapper's fields become what `make_target` computes on the defaults as written, or the call fails with its message |
| QiimeTools.NewQiime2 | bioflows/bioflowsutils/wrappers_qiime2.py:21-53 | the wrapper object is the one the plan describes (the emperor plot with its output name as written) and `job_parms` receive the profile's update; a failing `make_target` or a missing log_dir raises before `job_parms` are touched |
| QiimeTools.QiimeProfile | bioflows/bioflowsutils/wrappers_qiime2.py:21-53 | prog_id and the stdout log keep the name as given; the round-stripped name runs split into words with add_args as the only arguments; the default profile is mem 4000, time 300 and ncpus 1, and a custom one is the caller's |
| QiimeTools.QiimeNoTarget | bioflows/bioflowsutils/wrappers_qiime2.py:24-25 | an unknown plugin, or a tools subcommand other than import, sets no target, so the constructor raises AttributeError |
| Compile.Rounds | bioflows/definedworkflows/rnaseq/rnaseqworkflow.py:828-836 | the round of a key is at most the number of entries seen so far |
| Compile.RoundsCounts | bioflows/definedworkflows/rnaseq/rnaseqworkflow.py:835 | the round is the number of entries of the prefix that contain the key as a substring |
| Compile.RoundsAppend | bioflows/definedworkflows/rnaseq/rnaseqworkflow.py:835 | counting over two consecutive parts of the prefix adds up |
| Compile.RoundsOwn | bioflows/definedworkflows/rnaseq/rnaseqworkflow.py:775-777 | a key appended before it is counted has a round one higher than before, so at least 1 |
| Compile.RepeatRoundsIncrease | bioflows/definedworkflows/rnaseq/rnaseqworkflow.py:775-781 | each repeat of a base key gets a strictly higher round than any earlier occurrence |
| Compile.RoundsExample | bioflows/test_rnaseq_workflow/test_baseWorkflow.py:18-20 | `find_command_rounds('fastqc', ['fastqc_1', 'gsnap', 'fastqc_2'])` is 2 |
| Compile.IdentitiesDistinct | bioflows/definedworkflows/rnaseq/rnaseqworkflow.py:779-781 | two different rounds of one base key give two different step names once the later is suffixed |
| Compile.IdentityClean | bioflows/bioflowsutils/wrappers.py:126-138 | `prog_name_clean` takes a round-suffixed name back to its base key when no '_'-segment of the key contains "round" |
| Compile.OptionsLast | bioflows/definedworkflows/rnaseq/rnaseqworkflow.py:786-800 | the last option entry renders after all the others |
| Compile.OptionsAppend | bioflows/definedworkflows/rnaseq/rnaseqworkflow.py:786-800 | options of consecutive parts render one after the other: declaration order is kept |
| Compile.OptionEntryShape | bioflows/definedworkflows/rnaseq/rnaseqworkflow.py:788-800 | every rendered option starts with its flag; a list gives one string per element and anything else exactly one |
| Compile.CompileEntryFacts | bioflows/definedworkflows/rnaseq/rnaseqworkflow.py:762-822 | an entry that is a mapping or 'default' stores its option list (`['']` without options) and job params ('default' when absent) under its name, leaves every other step alone and adds its base key to the prefix, whose round for it grows by one; any other entry changes nothing |
| Compile.MappingKeepsHead | bioflows/definedworkflows/rnaseq/rnaseqworkflow.py:762-822 | compiling a mapping never moves the first stored step |
| Compile.AllKeepsHead | bioflows/definedworkflows/rnaseq/rnaseqworkflow.py:759-822 | compiling all mappings never moves the first stored step |
| Compile.FirstDeclaredStaysFirst | bioflows/definedworkflows/rnaseq/rnaseqworkflow.py:758-824 | the first declared step keeps its base key as name and, after the final reversal, is the last of `progs` |
| Dicts.StoreFacts | bioflows/definedworkflows/rnaseq/rnaseqworkflow.py:783 | after `d[k] = v` the key maps to v, every other key is unchanged, and the size grows only for a new key |
| Dicts.GetKeys | bioflows/definedworkflows/rnaseq/rnaseqworkflow.py:771 | a key is present exactly when it is among the keys |
| Dicts.StoreNewKey | bioflows/definedworkflows/rnaseq/rnaseqworkflow.py:783 | a new key goes after every existing one |
| Dicts.StoreTwice | bioflows/definedworkflows/rnaseq/rnaseqworkflow.py:783 | storing twice under a key is storing the second value at the first one's position |
| Config.OptionalText | bioflows/definedworkflows/rnaseq/rnaseqworkflow.py:296-302 | `run_parms.get(key, default)`: the default for a missing key, the text for a present text |
| Config.SetPathsFacts | bioflows/definedworkflows/rnaseq/rnaseqworkflow.py:350-365 | the paths exist exactly when work_dir and log_dir are texts; work_dir is then the configured one and the log directory ends with the configured log_dir |
| Config.FixedDirsDistinct | bioflows/definedworkflows/rnaseq/rnaseqworkflow.py:357-364 | checkpoints, sra, fastq, alignments and qc are five different directories |
| Config.InitialJobParams | bioflows/definedworkflows/rnaseq/rnaseqworkflow.py:210-213 | `job_params` start as exactly work_dir, time and mem, and need the run's work_dir |
| Config.SagaParmsFacts | bioflows/definedworkflows/rnaseq/rnaseqworkflow.py:253-270 | it raises exactly when saga_user is given without ssh_user; host and scheduler are the configured ones or "localhost" and "fork"; ssh_user is copied only when saga_user is present; every other entry is kept |
| Config.SagaParmsExample | bioflows/test_rnaseq_workflow/test_rnaSeqFlowBase.py:41-58 | a run section with saga_host, ssh_user and saga_scheduler but no saga_user gives that host and scheduler and no ssh_user, as the test's expected `job_params` show |
| Config.WithConda | bioflows/definedworkflows/rnaseq/rnaseqworkflow.py:225-226 | the run section gains a conda command when it has none and is otherwise unchanged |
| Config.BaseKwargsFacts | bioflows/definedworkflows/rnaseq/rnaseqworkflow.py:272-304 | the generic kwargs share the given job_parms dictionary, are 'default' with no add_job_parms, hold every directory of the run, and carry the run's conda command (the cluster one when it had none, so the local fallback is never used) |
| Config.PathsToTest | bioflows/definedworkflows/rnaseq/rnaseqworkflow.py:231-232 | the base workflow tests seven directories |
| Config.TestPathsFacts | bioflows/definedworkflows/rnaseq/rnaseqworkflow.py:391-408 | without saga_host it raises; on "localhost" the paths are checked as they are; on any other host each path is checked as "sftp://" + host + "/" + path, in order |
| Config.SingleCommandLine | bioflows/definedworkflows/rnaseq/rnaseqworkflow.py:555-559 | a one-command list writes the same line as that command given as text |
| Config.CmdsFileJoin | bioflows/definedworkflows/rnaseq/rnaseqworkflow.py:546-561 | the commands file is one "<s>:<cmds>" body per sample joined by newlines, with a final newline |
| Config.CmdsFileLines | bioflows/definedworkflows/rnaseq/rnaseqworkflow.py:546-561 | split at newlines, the file gives back one line per sample, in order, then the empty text after the last newline |
| Config.LineFields | bioflows/definedworkflows/rnaseq/rnaseqworkflow.py:314 | a split line always has a first field |
| Config.LineFiles | bioflows/definedworkflows/rnaseq/rnaseqworkflow.py:317-319 | a line's files are field 1, and field 2 exactly when the line has a third field |
| Config.ReadSamplesSnoc | bioflows/definedworkflows/rnaseq/rnaseqworkflow.py:313-320 | reading one more line reads the lines before it, then that line unless they raised |
| Config.ReadLinesStop | bioflows/definedworkflows/rnaseq/rnaseqworkflow.py:313-320 | once a line raises, the lines after it are never read |
| Config.ReadSamplesError | bioflows/definedworkflows/rnaseq/rnaseqworkflow.py:317 | reading the manifest raises exactly when some line has no comma |
| Config.ReadSamplesPaired | bioflows/definedworkflows/rnaseq/rnaseqworkflow.py:318-320 | a manifest read to the end marks the run paired-end exactly when some line has a third field (or it already was) |
| Config.ReadSamplesLast | bioflows/definedworkflows/rnaseq/rnaseqworkflow.py:316-319 | later lines win: each id maps to the files of the last line naming it, and ids never named keep their earlier entry |
| Config.LinkAllStep | bioflows/definedworkflows/rnaseq/rnaseqworkflow.py:652-666 | linking one more sample links those before it, then that one unless they raised |
| Config.LinkAllStops | bioflows/definedworkflows/rnaseq/rnaseqworkflow.py:652-666 | once a sample raises, the later samples are never linked |
| Config.NumberedNamesDistinct | bioflows/definedworkflows/rnaseq/rnaseqworkflow.py:662 | different numbers give different work files |
| Config.LinkSampleFacts | bioflows/definedworkflows/rnaseq/rnaseqworkflow.py:652-666 | a sample raises exactly when it has no source; otherwise it gets one work file per source, all different, numbered from 1 when there are several, every other sample untouched, and the i-th command links the i-th source to the i-th work file |
| Config.SraAllStep | bioflows/definedworkflows/rnaseq/rnaseqworkflow.py:458-525 | converting one more sample converts those before it, then that one unless they raised |
| Config.SraAllStops | bioflows/definedworkflows/rnaseq/rnaseqworkflow.py:458-525 | once a sample raises, the later samples are never converted |
| Config.SraNamesMatchLinks | bioflows/definedworkflows/rnaseq/rnaseqworkflow.py:471-525 | an SRA sample gets the same work files as a symlinked sample with one source (single-end) or two (paired-end) |
| Config.CsvLineFields | bioflows/definedworkflows/rnaseq/rnaseqworkflow.py:539-542 | a csv line of a comma-free id and non-empty comma-free files splits back into the id followed by the files |
| Chain.UpdateKwIdempotent | bioflows/definedworkflows/rnaseq/rnaseqworkflow.py:879-882 | calling `update_job_parms` twice with one key is calling it once |
| Chain.UpdateAllLastCustom | bioflows/definedworkflows/rnaseq/rnaseqworkflow.py:839-846 | the custom mode is sticky: after any sequence of keys the kwargs carry the parameters of the last custom key, whatever 'default' keys followed, and are untouched when none was custom |
| Chain.UpdateAllAppend | bioflows/definedworkflows/rnaseq/rnaseqworkflow.py:874-879 | updating over two runs of keys is updating over their concatenation, so the mode carries from one sample to the next |
| Chain.CallKeys | bioflows/definedworkflows/rnaseq/rnaseqworkflow.py:878-970 | one registry key per call, in order |
| Chain.AlignerCallsOrder | bioflows/definedworkflows/rnaseq/rnaseqworkflow.py:880-943 | the aligner expands into bammarkduplicates2, samindex, samsort, bamtomapped, bamtounmapped, samtobam and the aligner, and only the aligner gets the declared options, under its own name |
| Chain.AlignerCallsKwargs | bioflows/definedworkflows/rnaseq/rnaseqworkflow.py:884-941 | of the seven calls only samsort and the aligner get the updated kwargs, the others get `base_kwargs` with their own stdout, and the aligner writes align_dir/<s>.sam |
| Chain.OtherKeyCall | bioflows/definedworkflows/rnaseq/rnaseqworkflow.py:945-970 | every other key makes one call with the updated kwargs, its options, stdout work_dir/log_dir/<s>_<key>.log, and its name stripped of the round suffix |
| Chain.KeyCallsRoute | bioflows/definedworkflows/rnaseq/rnaseqworkflow.py:880-970 | a call with the updated kwargs writes their job_parms copy; every other call writes that of `base_kwargs` |
| Chain.RegistryHasNoRound | bioflows/definedworkflows/rnaseq/rnaseqworkflow.py:187-211 | no registry key contains "round" |
| Chain.RegistryDomain | bioflows/definedworkflows/rnaseq/rnaseqworkflow.py:187-211 | the registry holds exactly the listed 24 keys |
| Chain.StrippedLookupFinds | bioflows/definedworkflows/rnaseq/rnaseqworkflow.py:1095-1100 | the stripped lookup finds every repeated step whose base key is registered |
| Chain.RoundKeyLookup | bioflows/definedworkflows/rnaseq/rnaseqworkflow.py:945-958 | RnaSeqFlow and GatkFlow look a round key up unstripped, which is never registered, while DnaSeqFlow looks up the key the round was counted for; every flow names the call by the stripped key |
| Chain.RoundInIdentity | bioflows/definedworkflows/rnaseq/rnaseqworkflow.py:779-781 | a round identity contains "round" |
| Chain.StepsRecords | bioflows/definedworkflows/rnaseq/rnaseqworkflow.py:880-970 | a list of calls runs without an exception exactly when each constructs its wrapper, each then appending one record of its own wrapper; `new_base_kwargs` and `allTasks` are untouched |
| Chain.AllBuildConcat | bioflows/definedworkflows/rnaseq/rnaseqworkflow.py:880-941 | a concatenation of calls builds exactly when both parts do |
| Chain.StepsStopped | bioflows/definedworkflows/rnaseq/rnaseqworkflow.py:880-970 | once an exception is raised the remaining calls change nothing |
| Chain.KeysStopped | bioflows/definedworkflows/rnaseq/rnaseqworkflow.py:878-970 | once an exception is raised the remaining keys change nothing |
| Chain.KeysRecords | bioflows/definedworkflows/rnaseq/rnaseqworkflow.py:878-970 | a sample's keys run without an exception exactly when every call they make constructs; then they append one record per call in order and leave `new_base_kwargs` updated by every key |
| Chain.KeysRunNext | bioflows/definedworkflows/rnaseq/rnaseqworkflow.py:878 | the keys from the i-th on run key i, then the rest |
| Chain.ChainRunNext | bioflows/definedworkflows/rnaseq/rnaseqworkflow.py:874 | the samples from the i-th on run sample i, then the rest |
| Chain.ChainRunRealised | bioflows/definedworkflows/rnaseq/rnaseqworkflow.py:874-994 | `chain_commands` gives the same state with any builders that construct every call as the registered constructors do |
| Chain.SampleCallsCount | bioflows/definedworkflows/rnaseq/rnaseqworkflow.py:878-970 | a sample makes one call per key plus six more for each aligner key |
| Chain.KeyKwRestyled | bioflows/definedworkflows/rnaseq/rnaseqworkflow.py:839-846 | `update_job_parms` only changes the custom settings, and only towards 'custom' |
| Chain.SampleCallsKwargs | bioflows/definedworkflows/rnaseq/rnaseqworkflow.py:880-970 | every call gets either `base_kwargs` with only stdout set, or the sample's starting `new_base_kwargs` with at most stdout and the custom settings changed |
| Chain.KwAfterUpdates | bioflows/definedworkflows/rnaseq/rnaseqworkflow.py:878-882 | the kwargs after a sample are those after `update_job_parms` for each key in turn |
| Chain.SampleRunFacts | bioflows/definedworkflows/rnaseq/rnaseqworkflow.py:874-994 | one sample raises exactly when one of its calls fails; otherwise it appends one TaskSequence whose records are the calls' wrappers in order, \|progs\| plus six per aligner, and leaves the kwargs updated by every key |
| Chain.ChainRunTasks | bioflows/definedworkflows/rnaseq/rnaseqworkflow.py:874-994 | when no call raises, every sample appends exactly one TaskSequence of \|progs\| records plus six per aligner key, after the tasks already there |
| Chain.ChainStopped | bioflows/definedworkflows/rnaseq/rnaseqworkflow.py:874-994 | once an exception is raised the remaining samples change nothing |
| Chain.RoundCallsFail | bioflows/definedworkflows/rnaseq/rnaseqworkflow.py:945-958 | in RnaSeqFlow and GatkFlow the call of a round identity raises a KeyError |
| Chain.UnregisteredFails | bioflows/definedworkflows/rnaseq/rnaseqworkflow.py:962 | a call whose key is not registered raises a KeyError |
| Chain.BrokenEntryBreaksSample | bioflows/definedworkflows/rnaseq/rnaseqworkflow.py:878-994 | one entry whose calls cannot all construct makes the whole sample raise |
| Chain.RoundKeyBreaksSample | bioflows/definedworkflows/rnaseq/rnaseqworkflow.py:945-958 | in RnaSeqFlow and GatkFlow every sample whose `progs` hold a round identity raises before its TaskSequence is appended |
| Tasks.JobScriptShape | bioflows/definedworkflows/rnaseq/rnaseqworkflow.py:52-60 | the job script opens with the fixed header and the conda command and closes with the srun line followed directly by the command writing DONE into the checkpoint |
| Tasks.JobName | bioflows/definedworkflows/rnaseq/rnaseqworkflow.py:62-63 | the task name is the sample, '_', then the wrapper's name character by character with every space turned into '_' |
| Tasks.SetupFacts | bioflows/definedworkflows/rnaseq/rnaseqworkflow.py:46-68 | a set-up job runs the wrapper's script in the wrapper's working directory, is named by `JobName`, and logs to log_dir/<name>_mysagajob.stdout and .stderr |
| Tasks.SetupKeeps | bioflows/definedworkflows/rnaseq/rnaseqworkflow.py:47-48 | every other entry of the wrapper's job_parms reaches the job unchanged |
| Tasks.SetupStaging | bioflows/definedworkflows/rnaseq/rnaseqworkflow.py:69-71 | on a host other than 'localhost' the output is staged from ssh.ccv.brown.edu:<luigi_target> to the local checkpoint's directory; on 'localhost' nothing is added to the fixed entries |
| Tasks.SetupHead | bioflows/definedworkflows/rnaseq/rnaseqworkflow.py:47 | a task's setup depends only on the first element of its list |
| Tasks.ChainLinks | bioflows/definedworkflows/rnaseq/rnaseqworkflow.py:139-146 | over two or more wrappers, the task on the suffix from i requires the task on the suffix from i+1, a TaskSequence except for the last element alone, a TopTask that requires nothing, so the last record runs first |
| Tasks.SingleRecordChain | bioflows/definedworkflows/rnaseq/rnaseqworkflow.py:139-146 | a list of one wrapper chains to a TopTask with an empty list, whose setup and output fail on `prog_parms[0]` |
| Tasks.RequiresFixedReachesOnlyNonEmpty | bioflows/definedworkflows/rnaseq/rnaseqworkflow.py:139-146 | corrected so that one wrapper requires nothing further, every task reached from a non-empty list holds a non-empty list, and longer lists chain exactly as before |
| Tasks.BaseTask.constructor | bioflows/definedworkflows/rnaseq/rnaseqworkflow.py:41-44 | a task starts with no decoded wrapper, no job parameters and no name |
| Tasks.BaseTask.Setup | bioflows/definedworkflows/rnaseq/rnaseqworkflow.py:46-73 | writing the script with successive `+=` leaves the wrapper, job parameters and name `SetupOf` specifies, or fails exactly as it does |
| Workflow.ConfigureSteps | bioflows/definedworkflows/rnaseq/rnaseqworkflow.py:185-239 | a configured workflow ran every step of `__init__` in order (job_params, manifest, saga parameters, conda command, `set_paths`, `set_base_kwargs`) and holds each step's result |
| Workflow.ConfigureParams | bioflows/definedworkflows/rnaseq/rnaseqworkflow.py:210-213 | `job_params` start with the run's work_dir, time 80 and mem 3000, and `set_saga_parms` adds a saga host and scheduler |
| Workflow.ConfigureSamples | bioflows/definedworkflows/rnaseq/rnaseqworkflow.py:216-218 | without a fastq_file the samples are empty; otherwise they are what the manifest's lines give |
| Workflow.ConfigurePaths | bioflows/definedworkflows/rnaseq/rnaseqworkflow.py:228-230 | the log directory is work_dir joined with log_dir; the generic kwargs are 'default' and hold neither flow directory yet |
| Workflow.FlowKwargsFixedCopies | bioflows/definedworkflows/rnaseq/rnaseqworkflow.py:1153-1163 | with the copy taken after the flow's directory is added (as GatkFlow does), every flow's `new_base_kwargs` hold that directory with their own job_parms copy; DnaSeqFlow and GatkFlow are unchanged by the correction |
| Workflow.RnaCopyLacksExpressionDir | bioflows/definedworkflows/rnaseq/rnaseqworkflow.py:854-866 | as written, RnaSeqFlow's `new_base_kwargs` lack the expression_dir its `base_kwargs` hold |
| Workflow.HtSeqCountNeedsExpressionDir | bioflows/bioflowsutils/wrappers.py:710-718 | an htseq-count step built from kwargs without expression_dir raises |
| Workflow.HtSeqCountRegistered | bioflows/definedworkflows/rnaseq/rnaseqworkflow.py:199 | htseq-count is registered to HtSeqCounts and is not RnaSeqFlow's aligner |
| Workflow.MissingExpressionDirBreaks | bioflows/definedworkflows/rnaseq/rnaseqworkflow.py:839-846 | `update_job_parms` never adds expression_dir, so a sample with an htseq-count step has a call that cannot construct |
| Workflow.HtSeqCallFails | bioflows/bioflowsutils/wrappers.py:716-717 | a registered htseq-count call whose kwargs lack expression_dir fails to construct |
| Workflow.KeyCallAt | bioflows/definedworkflows/rnaseq/rnaseqworkflow.py:876-878 | a plain key among a sample's keys gives one call under that key whose kwargs keep the starting expression_dir |
| Workflow.KeyKwKeepsExpressionDir | bioflows/definedworkflows/rnaseq/rnaseqworkflow.py:839-846 | `update_job_parms` leaves expression_dir as it was |
| Workflow.PlainKeyCalls | bioflows/definedworkflows/rnaseq/rnaseqworkflow.py:960-970 | a key that is neither the aligner nor a round expands into exactly one call under that key |
| Workflow.SampleCallsNext | bioflows/definedworkflows/rnaseq/rnaseqworkflow.py:876-877 | a sample's calls are its first key's calls followed by those of the remaining keys |
| Workflow.RnaHtSeqBreaksSample | bioflows/definedworkflows/rnaseq/rnaseqworkflow.py:868-994 | as written, every RnaSeqFlow sample with an htseq-count step raises before its TaskSequence is appended |
| Workflow.NumberedLinks | bioflows/definedworkflows/rnaseq/rnaseqworkflow.py:660-666 | two or more sources are linked as <s>_<i>.fq.gz numbered from 1, one link command each, all stored under the sample |
| Workflow.Workflow.constructor | bioflows/definedworkflows/rnaseq/rnaseqworkflow.py:854-866 | the attributes a flow's `__init__` leaves, with `base_kwargs` sharing `job_params` and `new_base_kwargs` holding a fresh copy |
| Workflow.Workflow.ParseSampleInfoFromFile | bioflows/definedworkflows/rnaseq/rnaseqworkflow.py:306-321 | `sample_fastq` and `paired_end` are what reading the manifest's lines in order leaves, up to the first IndexError |
| Workflow.Workflow.ReadLine | bioflows/definedworkflows/rnaseq/rnaseqworkflow.py:313-320 | one manifest line: field 0 maps to [field 1] (and field 2 when present, which sets paired_end), or an IndexError for a line with one field |
| Workflow.Workflow.SymlinkFastqs | bioflows/definedworkflows/rnaseq/rnaseqworkflow.py:639-666 | `sample_fastq_work` and the link commands are what linking every sample in order gives |
| Workflow.Workflow.LinkNumbered | bioflows/definedworkflows/rnaseq/rnaseqworkflow.py:660-666 | the numbered loop stores <s>_<i>.fq.gz from 1 under the sample and appends one link command per source |
| Workflow.Workflow.LinkFiles | bioflows/definedworkflows/rnaseq/rnaseqworkflow.py:652-666 | one sample's work files and commands, or the IndexError for a sample without sources |
| Workflow.Workflow.ConvertSraWork | bioflows/definedworkflows/rnaseq/rnaseqworkflow.py:458-525 | the work files `convert_sra_to_fastq_cmds` records for each sample (one .fq.gz, or _1/_2 for paired-end) |
| Workflow.Workflow.SampleCsv | bioflows/definedworkflows/rnaseq/rnaseqworkflow.py:538-543 | one line per sample: the id and its files joined by ',' with ',' stripped from both ends |
| Workflow.Workflow.ParseProgInfo | bioflows/definedworkflows/rnaseq/rnaseqworkflow.py:747-826 | `progs` and `progs_job_parms` are what compiling every mapping in order gives, with `progs` reversed at the end |
| Workflow.Workflow.AddEntry | bioflows/definedworkflows/rnaseq/rnaseqworkflow.py:762-822 | one entry updates `progs`, `progs_job_parms` and the prefix as a compile step does |
| Workflow.Workflow.UpdateJobParms | bioflows/definedworkflows/rnaseq/rnaseqworkflow.py:839-846 | a key with job parameters updates the shared `new_base_kwargs` (custom when not 'default', unchanged otherwise); a key without any raises KeyError |
| Workflow.Workflow.KeyJobParms | bioflows/definedworkflows/rnaseq/rnaseqworkflow.py:877-880 | the `update_job_parms` calls of one key leave the job_parms object alone and update the kwargs as specified |
| Workflow.Workflow.CallCommand | bioflows/definedworkflows/rnaseq/rnaseqworkflow.py:886-893 | one constructor call appends its wrapper's record to `samp_progs` or gives the exception it raises, with the shared job_parms updated as the constructor does |
| Workflow.Workflow.RunCalls | bioflows/definedworkflows/rnaseq/rnaseqworkflow.py:880-941 | a key's calls construct in order until one raises |
| Workflow.Workflow.KeyCommands | bioflows/definedworkflows/rnaseq/rnaseqworkflow.py:876-977 | one key for one sample: its job-parameter update, then its calls |
| Workflow.Workflow.SampleCommands | bioflows/definedworkflows/rnaseq/rnaseqworkflow.py:873-994 | one sample: every key of `progs` in order, then its TaskSequence appended to `allTasks` |
| Workflow.Workflow.ChainSamples | bioflows/definedworkflows/rnaseq/rnaseqworkflow.py:873-994 | every sample of `sample_fastq_work` in order until one raises |
| Workflow.Workflow.ChainCommands | bioflows/definedworkflows/rnaseq/rnaseqworkflow.py:868-997 | the kwargs, both job_parms dictionaries and `allTasks` are what the chain run specifies, and the result fails exactly when a sample raised |
| Workflow.Construct | bioflows/definedworkflows/rnaseq/rnaseqworkflow.py:886-893 | the registry lookup and the constructor, which writes the shared job_parms dictionary, give the wrapper's record, or the KeyError or constructor exception |
| Workflow.RenderEntry | bioflows/definedworkflows/rnaseq/rnaseqworkflow.py:788-800 | the option strings of one entry: "flag value", one per list element, or the bare flag |
| Workflow.RenderOptions | bioflows/definedworkflows/rnaseq/rnaseqworkflow.py:785-800 | the option strings of an `options` mapping in declaration order |
| OldWorkflow.EscapedRoundTrip | definedworkflows/rnaseq/rnaseqworkflow.py:293 | the body of a string's repr reads back as the string, so the "%s %s" rendering of a list loses none of its elements' text |
| OldWorkflow.EscapedQuotes | definedworkflows/rnaseq/rnaseqworkflow.py:293 | every quote inside a repr body is escaped, so the literal ends at its closing quote |
| OldWorkflow.OldOptionsOnePerEntry | definedworkflows/rnaseq/rnaseqworkflow.py:290-293 | the older rendering gives exactly one string per option, in declaration order, each the flag and a space followed by the value |
| OldWorkflow.OldOptionAgainstNew | definedworkflows/rnaseq/rnaseqworkflow.py:293 | against the newer rendering: a non-None scalar renders the same; None gives "flag None" instead of the bare flag; a list gives one bracketed string instead of one string per element |
| OldWorkflow.Entries | definedworkflows/rnaseq/rnaseqworkflow.py:284-303 | one entry per declared key, each with its list |
| OldWorkflow.OldParseProgs | definedworkflows/rnaseq/rnaseqworkflow.py:284-303 | with distinct keys, every entry is added once, in declaration order, under its own key with no round suffix: options, `['']` for a mapping without options or for 'default', `[]` for anything else |
| OldWorkflow.OldParseJobParms | definedworkflows/rnaseq/rnaseqworkflow.py:296-300 | a key declared as a mapping gets its job_params, or 'default' when it has none; any other key keeps what `progs_job_parms` held |
| OldWorkflow.OldDefaultHasNoJobParms | definedworkflows/rnaseq/rnaseqworkflow.py:301-302 | as written, a step declared 'default' is in `progs` but gets no `progs_job_parms` entry |
| OldWorkflow.OldParseFixedCovers | definedworkflows/rnaseq/rnaseqworkflow.py:301-302 | corrected, every key that becomes a step has job parameters ('default' ones for 'default'), and `progs` is unchanged |
| OldWorkflow.OldUpdateJobParms | definedworkflows/rnaseq/rnaseqworkflow.py:760-766 | the update succeeds exactly for a key with job parameters |
| OldWorkflow.OldUpdateNoCarryOver | definedworkflows/rnaseq/rnaseqworkflow.py:760-766 | `base_kwargs` are never changed, so a key's kwargs are what it would get as the only key, where the newer code keeps the last custom parameters for a later 'default' key |
| OldWorkflow.OldKeyCallsFacts | definedworkflows/rnaseq/rnaseqworkflow.py:656-731 | one key's calls succeed exactly for gsnap with job parameters or a registered key, giving seven calls for gsnap and one otherwise |
| OldWorkflow.CollectOk | definedworkflows/rnaseq/rnaseqworkflow.py:654-731 | collecting a sample's calls succeeds exactly when no key raises |
| OldWorkflow.CollectStops | definedworkflows/rnaseq/rnaseqworkflow.py:654-731 | once a key has raised, the later keys change nothing |
| OldWorkflow.OldSampleCallsOk | definedworkflows/rnaseq/rnaseqworkflow.py:654-731 | a sample's calls succeed exactly when every key is fine |
| OldWorkflow.CollectCount | definedworkflows/rnaseq/rnaseqworkflow.py:654-731 | with seven calls per gsnap key and one per other key, a sample has one call per key plus six per gsnap key |
| OldWorkflow.OldSampleCallsCount | definedworkflows/rnaseq/rnaseqworkflow.py:654-731 | a sample's calls succeed exactly when every key is fine, and then number one per key plus six per gsnap key |
| OldWorkflow.OldKeyCallsKw | definedworkflows/rnaseq/rnaseqworkflow.py:656-731 | a key's calls get `base_kwargs` with their stdout file, except samsort and gsnap, which get them updated with gsnap's own parameters |
| OldWorkflow.OldSampleCallsKwargs | definedworkflows/rnaseq/rnaseqworkflow.py:654-731 | every call of a sample gets `base_kwargs` with its stdout, except samsort and gsnap with gsnap's parameters: no key's parameters reach another key |
| OldWorkflow.OldSampleCallsSampleFree | definedworkflows/rnaseq/rnaseqworkflow.py:654-731 | whether a sample's calls raise, and with which exception, does not depend on the sample |
| OldWorkflow.OldSampleCallsRaise | definedworkflows/rnaseq/rnaseqworkflow.py:654-731 | a raising key makes the whole sample raise |
| OldWorkflow.OldDefaultGsnapRaises | definedworkflows/rnaseq/rnaseqworkflow.py:656-658 | as written, gsnap declared 'default' makes every sample's `chain_commands` raise KeyError in `update_job_parms` |
| OldWorkflow.OldDefaultGsnapFixed | definedworkflows/rnaseq/rnaseqworkflow.py:760-766 | corrected, gsnap declared 'default' gets `base_kwargs` unchanged |
| OldWorkflow.ChainAllTasks | definedworkflows/rnaseq/rnaseqworkflow.py:650-755 | without an exception there is one TaskSequence per sample, holding that sample's calls |
| OldWorkflow.OldChainTasks | definedworkflows/rnaseq/rnaseqworkflow.py:650-755 | without an exception `chain_commands` adds exactly one TaskSequence per sample, holding that sample's calls |
| OldWorkflow.ChainAllHead | definedworkflows/rnaseq/rnaseqworkflow.py:650-755 | when a run over some samples raised nothing, the first sample raised nothing |
| OldWorkflow.ChainAllAllOrNothing | definedworkflows/rnaseq/rnaseqworkflow.py:650-755 | when raising does not depend on the sample, a run adds all its tasks or none |
| OldWorkflow.OldChainAllOrNothing | definedworkflows/rnaseq/rnaseqworkflow.py:650-755 | `chain_commands` adds all its tasks or none: an exception is raised on the first sample or not at all |
| OldWorkflow.ChainAllStops | definedworkflows/rnaseq/rnaseqworkflow.py:650-755 | once a sample has raised, the later samples change nothing |
| OldWorkflow.TextsAt | definedworkflows/rnaseq/rnaseqworkflow.py:399-456 | the k-th command is the k-th run's words joined by spaces |
| OldWorkflow.OldSraAllStops | definedworkflows/rnaseq/rnaseqworkflow.py:394-459 | once a sample raises, the later samples are never downloaded |
| OldWorkflow.OldSraSampleFacts | definedworkflows/rnaseq/rnaseqworkflow.py:394-459 | a sample fails exactly when it has no run; otherwise it gets one command per run, the k-th fetching the k-th run, and the work files <s>.fq.gz, or <s>_1.fq.gz and <s>_2.fq.gz when paired, whatever the run count |
| OldWorkflow.SraCmdDownloads | definedworkflows/rnaseq/rnaseqworkflow.py:401 | every run's command first downloads that run into the SRA directory with wget |
| OldWorkflow.OldSraAgreesWithConvert | definedworkflows/rnaseq/rnaseqworkflow.py:394-459 | the older download records the same work files, and stops at the same sample, as the newer `convert_sra_to_fastq_cmds` |
| OldWorkflow.ReplaceSraSuffix | definedworkflows/rnaseq/rnaseqworkflow.py:404 | `str.replace` of "sra" in "<acc>.sra", for an accession without 's', keeps the dot before the replacement |
| OldWorkflow.ReplaceDotSraSuffix | definedworkflows/rnaseq/rnaseqworkflow.py:404 | replacing ".sra" in "<acc>.sra" gives the accession followed directly by the replacement |
| OldWorkflow.PairedDumpAsWritten | definedworkflows/rnaseq/rnaseqworkflow.py:411-455 | as written, a paired-end run <acc>.sra is expected at <acc>._1.fastq.gz and <acc>._2.fastq.gz, and with several runs the flag is spelled --split_files |
| OldWorkflow.PairedDumpFixed | bioflows/definedworkflows/rnaseq/rnaseqworkflow.py:473-525 | corrected as in the newer copy, both halves are read from <acc>_1.fastq.gz and <acc>_2.fastq.gz and the flag is --split-files for any run count |
| OldWorkflow.OldJobSetupAgrees | definedworkflows/rnaseq/rnaseqworkflow.py:31-56 | the older and newer `setup` fail on the same wrappers with the same exception, and otherwise give the same name and job parameters except for the script |
| OldWorkflow.OldJobScriptDropsBanners | definedworkflows/rnaseq/rnaseqworkflow.py:36-43 | the older script is the newer one without the PATH and Java banners |
| OldWorkflow.OldRnaSeqFlow.constructor | definedworkflows/rnaseq/rnaseqworkflow.py:205-239 | the flow starts with its kwargs, directories and samples and with empty `progs`, `progs_job_parms`, `sample_fastq_work` and `allTasks` |
| OldWorkflow.OldRnaSeqFlow.ParseProgInfo | definedworkflows/rnaseq/rnaseqworkflow.py:273-306 | `progs` and `progs_job_parms` are what parsing every entry in order gives, with `progs` reversed at the end |
| OldWorkflow.OldRnaSeqFlow.AddStep | definedworkflows/rnaseq/rnaseqworkflow.py:285-303 | one entry's list, filled option by option, and its job parameters |
| OldWorkflow.OldRnaSeqFlow.UpdateJobParms | definedworkflows/rnaseq/rnaseqworkflow.py:760-766 | the returned copy of `base_kwargs`, which stay untouched |
| OldWorkflow.OldRnaSeqFlow.KeyCalls | definedworkflows/rnaseq/rnaseqworkflow.py:656-731 | one key's calls for one sample, or the KeyError |
| OldWorkflow.OldRnaSeqFlow.SampleCalls | definedworkflows/rnaseq/rnaseqworkflow.py:652-731 | a sample's calls, key by key, up to the first exception |
| OldWorkflow.OldRnaSeqFlow.ChainCommands | definedworkflows/rnaseq/rnaseqworkflow.py:644-757 | `allTasks` gains one TaskSequence per sample up to the first exception, which is returned |
| OldWorkflow.OldRnaSeqFlow.DownloadSraCmds | definedworkflows/rnaseq/rnaseqworkflow.py:386-465 | `sample_fastq_work` and the commands are what downloading every sample in order gives |
| OldWorkflow.DownloadAll | definedworkflows/rnaseq/rnaseqworkflow.py:394-459 | the loop of `download_sra_cmds` on a local copy of `sample_fastq_work`: the work files, the commands and the stopping exception are those of downloading every sample in order |
| OldWorkflow.SampleDownloads | definedworkflows/rnaseq/rnaseqworkflow.py:396-459 | one command per run of a sample, in order, each the run's words joined by spaces |
| Sra.FtpUrlRun | bioflows/bioutils/access_sra/sra.py:62-70 | the run accession can be read back from the last path segment of its FTP URL, minus ".sra" |
| Sra.FtpUrlInjective | bioflows/bioutils/access_sra/sra.py:62-70 | distinct run accessions get distinct FTP URLs |
| Sra.PathsOfFacts | bioflows/bioutils/access_sra/sra.py:106 | `record['paths'][0]` succeeds exactly when 'paths' is a non-empty list, whose items are then the paths, or non-empty text, whose characters are |
| Sra.KeyNameFacts | bioflows/bioutils/access_sra/sra.py:107 | the sample key is "<sample_primary_id>_<experiment_id>", and the lookup raises when either field is missing or not text |
| Sra.StepFacts | bioflows/bioutils/access_sra/sra.py:105-124 | one loop pass succeeds exactly when the paths and the key exist; its sample key then maps to one URL per path, each naming its run, and to its name, while every other key keeps its entry |
| Sra.StepKeys | bioflows/bioutils/access_sra/sra.py:108-116 | a successful pass adds exactly its sample key to sample_to_file and sample_to_name |
| Sra.StepRecords | bioflows/bioutils/access_sra/sra.py:108-124 | every path of the record maps to the record stamped with manifest_name, the other paths keep their records, and key_url ends at the last path |
| Sra.IngestKeys | bioflows/bioutils/access_sra/sra.py:102-124 | when no record fails, the keys of both dictionaries after the loop are the old keys plus every record's sample key |
| Sra.IngestKeeps | bioflows/bioutils/access_sra/sra.py:102-124 | a key that no later record produces keeps its URLs and name |
| Sra.IngestLastWins | bioflows/bioutils/access_sra/sra.py:102-124 | the last record with a given sample key decides that key's URLs and name |
| Sra.CheckStr | bioflows/bioutils/access_sra/sra.py:159-165 | lists are joined with ';' and text kept; only a None value raises |
| Sra.CheckStrSplit | bioflows/bioutils/access_sra/sra.py:159-165 | a list without ';' in its items can be split back out of check_str's output |
| Sra.Fields | bioflows/bioutils/access_sra/sra.py:151 | rendering 'key:value' fields succeeds exactly when every value is not None, and gives one field per entry in order |
| Sra.RecordLine | bioflows/bioutils/access_sra/sra.py:151 | a record's line fails exactly when one of its fields does |
| Sra.LineFields | bioflows/bioutils/access_sra/sra.py:151 | without commas inside, the line splits back into the path key and the rendered fields |
| Sra.SraUtils.constructor | bioflows/bioutils/access_sra/sra.py:33-37 | the class-level dictionaries start empty |
| Sra.SraUtils.GetSraRecords | bioflows/bioutils/access_sra/sra.py:95-145 | the dictionaries end as the loop computes record by record; the call raises on the first bad record, with no record (an unbound key_url), or when the last record's library_type is missing or None; with no record it raises `UnboundLocalError` for key_url |
| Sra.SraUtils.AddRecord | bioflows/bioutils/access_sra/sra.py:105-124 | one pass stores the record, returning its last path, or raises and changes nothing |
| Sra.SraUtils.AddPaths | bioflows/bioutils/access_sra/sra.py:116-124 | sample_to_file[key] ends as the URLs of all paths in order, every path maps to the record, and sample_to_name is unchanged |
| Sra.SraUtils.WriteRecords | bioflows/bioutils/access_sra/sra.py:147-157 | with no outfile nothing is written; otherwise one line per path of sra_records, each key once in some order, or the error of a record with a None value |
| FastqcParse.Where | bioflows/bioutils/parse_fastqc/parsefastqc.py:39-40 | the indices, ascending, of exactly the lines that match |
| FastqcParse.ModuleStartsSortedDifference | bioflows/bioutils/parse_fastqc/parsefastqc.py:41 | the module starts are the marker lines that are not end lines, each once, ascending |
| FastqcParse.ModuleNames | bioflows/bioutils/parse_fastqc/parsefastqc.py:43 | one name per module start: that start's header line |
| FastqcParse.Zip | bioflows/bioutils/parse_fastqc/parsefastqc.py:44 | Python 2 `zip`: as long as the shorter list, pairing elements by index |
| FastqcParse.PySliceInRange | bioflows/bioutils/parse_fastqc/parsefastqc.py:49 | within the list, a Python slice is the plain subsequence |
| FastqcParse.SecondModuleLines | bioflows/bioutils/parse_fastqc/parsefastqc.py:48-49 | on a parsed report, the slice lies between the second module's header and its end marker |
| FastqcParse.Header | bioflows/bioutils/parse_fastqc/parsefastqc.py:50 | the header exists exactly when the module data is not empty |
| FastqcParse.HeaderFields | bioflows/bioutils/parse_fastqc/parsefastqc.py:50 | the header fields hold no tab and join back with tabs into the stripped first line |
| FastqcParse.FastqcParser.constructor | bioflows/bioutils/parse_fastqc/parsefastqc.py:7-12 | every result field starts as None |
| FastqcParse.FastqcParser.ParseResultsFile | bioflows/bioutils/parse_fastqc/parsefastqc.py:14-45 | the parser stores the report lines, the module names and the (start, end) pairs, and keeps seq_quals_data |
| FastqcParse.FastqcParser.ExtractSeqQualsModule | bioflows/bioutils/parse_fastqc/parsefastqc.py:47-52 | stores the second module's lines and returns their header, or raises and leaves seq_quals_data unset |

## Left out

- Job submission and scheduling are not modelled: `BaseTask.create_saga_job`, the scp staging, the saga state polling with `time.sleep`, and luigi's worker pool in `luigi.build`. They talk to external services and run concurrently. Only the default job values (time 60, mem 2000, ncpus 1) are kept, as data.
- Directory creation in `check_paths` and every subprocess or OS call are left out: `version`, `version_jar`, `run_jar` and `add_openmp` of the wrappers, and utils.py's `safe_call`, `cat_to_file`, `head`, `tail`, `count_lines`, `readlines_reverse`, `which`, `memusage`, `zipdir`, `md5sum`, `safe_mkdir`, `make_pipe`, `safe_print` and `get_caller_info`. FastQC's call to `version` is a no-op in the model.
- `die`, `info` and printing are replaced: a call that dies is a `Failure` with its message; text that is only printed is dropped or, in parsefastqc, returned.
- Entrez, lxml and `Sra_Element` (sra.py lines 72-93 and 167-259), and all of `sra_info.py`, are left out because they are network access and XML parsing. The parsed record is an input.
- sha224, md5 and `md5seed` are left out as real functions: sha224 is an uninterpreted function of the `Host`, and md5 is not used by the modelled code.
- Floating point is left out: `bytes_to_gb`, `human_readable_size` and `rusage_diff`. The leaf distance of `newick_to_json` is kept as its text, not as `float(...)`.
- YAML loading (`ordered_load`, `parse_config`) and jsonpickle encoding and decoding are left out; the parsed declaration and the encoded wrapper are values.
- `create_wrapper_class` and `make_function_object` (new_wrappers.py lines 338-423) and `function_texts.py` are left out because they generate and `exec` code.
- Zip reading in parsefastqc.py lines 19-23 is left out; the lines of `fastqc_data.txt` are an input.
- `convertbamtofastq.py` is left out: it does not parse and only shells out. `create_catalog` is left out: it is SQL over undefined names.
- OldWorkflow.OldRnaSeqFlow.constructor: the older `RnaSeqFlow.__init__` always raises as written, because it ends with `create_catalog` (definedworkflows/rnaseq/rnaseqworkflow.py:237), which reads `run_parms['db']` (KeyError when absent) and then calls `create_engine`, which lines 1-4 never import (NameError). The constructor and every OldWorkflow member model the flow with that last call removed.
- `BaseWrapperNew.__init__`, `join_split_cmd` and `setup_command` are not modelled separately. The tool families derive from `wrappers.BaseWrapper` and use its versions. `BaseWrapperNew.prog_name_clean` and `name_clean` have the same text as `BaseWrapper`'s, so they are modelled once, in BaseWrappers.
- NewWrappers.SuffixFields.UpdateFileSuffix and ResetAddArgs: Picard, Gatk, SamTools and Qiime2 derive from `wrappers.BaseWrapper` (wrappers.py:34-322), which defines neither `update_file_suffix` nor `reset_add_args`. As written, `SamTools.__init__` and `Qiime2.__init__` raise AttributeError at their first `self.reset_add_args()` (wrappers_samtools.py:23, wrappers_qiime2.py:22), and Picard's and Gatk's `make_target` raise it at `update_file_suffix`. The model assumes the families have `BaseWrapperNew`'s two methods (new_wrappers.py:214-262), so their constructors are modelled past that point.
- For the older workflow file, `TaskSequence.requires` and the `symlink_fastqs` naming have the same text as in the newer file, so they are covered by `Tasks.ChainLinks` and `Config.LinkSampleFacts`.
- The wrapper classes SamTools (of wrappers.py), QualiMapRnaSeq, FeatureCounts, FastqScreen and Kneaddata are not modelled. None of the modelled flows registers them.
- `os.path.abspath` and `os.path.join` do not normalise paths (no `..`, `.` or doubled-slash handling), because the modelled code never produces such paths from its own constants.
- In `table`, the lazy generator's partial output before an error is not modelled: the model returns either all lines or the error.
- In `newick_to_json`, Python's recursion limit is not modelled.
- `copy.deepcopy` is modelled as a copy with the same contents. Object identity of nested values is not modelled.
- `set_saga_parms` tests for 'saga_user' but reads 'ssh_user'. The model states this as written (`Config.SagaParmsFacts`); the intent is unclear, so it is not a finding.
- SamToolsSort's thread argument is lost because `args` is reassigned later. The model states this as written (`ToolFacts.SortDropsThreads`); the intent is unclear, so it is not a finding.
- Text encoding is not modelled: `check_str`'s `encode("utf-8")` keeps the text unchanged.
- Option values that are floats are not modelled: the configuration values are integers, text, booleans and None.
- Params.JoinOpt and Params.Present: `os.path.join(None, b)` in Python 2 returns b when b is absolute and raises AttributeError otherwise; the model raises for every b. The joined names in the modelled code are sample names plus suffixes, which the model does not restrict to relative ones, so an absolute sample name with a missing directory is the one input on which the model raises and the code does not (also for PicardTools.InputArg and GatkTools.AlignedInput).
- Params.Kwargs: each keyword argument is an `Option`, so a key present with the value None is taken as absent. Where the code indexes a key (`kwargs['qiime_dir']`), a present None is passed on and `os.path.join(None, v)` raises AttributeError for a relative v; the model reports the KeyError of an absent key instead (for example in QiimeTools.JoinVal).

## Findings

| source | as written | input that shows it | evidently intended | confidence | as-written member | corrected member |
|---|---|---|---|---|---|---|
| bioflows/bioflowsutils/new_wrappers.py:197-211 | `setup_run` calls `chain`, which the module never imports (line 1 imports only yaml, os, hashlib and sys) | any wrapper whose constructor reaches `setup_run` | the command words then the arguments, joined by spaces, as in BaseWrapper | not executed | NewWrappers.ChainNotImported | NewWrappers.NewSetupRunIsBase |
| bioflows/bioflowsutils/wrappers_picard.py:205 | `input + + self.out_suffix` applies unary plus to a string | MeanQualityByCycle with align_dir, qc_dir and the reference given | the INPUT path and the ".txt"/".pdf" outputs named after out_suffix | not executed | PicardTools.MeanQualityAlwaysFails | PicardTools.QualityArgs |
| bioflows/bioflowsutils/wrappers_samtools.py:117 | the test `"-b" or ... in args` is always true, so "-b" is prepended exactly when there is any user argument | no user arguments (no format flag at all), or the single argument "-c" ("-b" added besides) | "-b" only when no user argument picks a format | not executed | SamToolsFamily.IndexFlagsDiffer | SamToolsFamily.IndexFlags |
| bioflows/bioflowsutils/wrappers_qiime2.py:342-348 | `.strip('_pcoa_results.qza')` trims a character set from both ends | the default pcoa path core-metrics-results/unweighted_unifrac_pcoa_results.qza loses its leading "core" | the path without its "_pcoa_results.qza" ending | not executed | QiimeTools.EmperorNameDiffers | QiimeTools.EmperorNameStem |
| bioflows/definedworkflows/rnaseq/rnaseqworkflow.py:139-146 | a `TaskSequence` of one wrapper requires a `TopTask` with an empty list, whose `setup` then indexes `prog_parms[0]` | a workflow whose only step is fastqc, so each sample's sequence holds one record | a one-record list requires nothing further | not executed | Tasks.SingleRecordChain | Tasks.RequiresFixedReachesOnlyNonEmpty |
| bioflows/definedworkflows/rnaseq/rnaseqworkflow.py:945-958 | RnaSeqFlow and GatkFlow strip the round from a repeated key but look the wrapper up under the unstripped key, which the registry lacks | a second fastqc step, keyed fastqc_round_2 | look up the stripped key, as DnaSeqFlow does | not executed | Chain.RoundKeyBreaksSample | Chain.StrippedLookupFinds |
| bioflows/definedworkflows/rnaseq/rnaseqworkflow.py:854-866 | RnaSeqFlow adds expression_dir to base_kwargs after `new_base_kwargs` was copied from them, and the steps are built from `new_base_kwargs` | any RnaSeqFlow with an htseq-count step | `new_base_kwargs` copied from the finished base_kwargs | not executed | Workflow.RnaHtSeqBreaksSample | Workflow.FlowKwargsFixedCopies |
| definedworkflows/rnaseq/rnaseqworkflow.py:301-302 | a step declared 'default' gets no `progs_job_parms` entry, and `update_job_parms` then raises KeyError | gsnap declared as 'default' | 'default' job parameters for a 'default' step | not executed | OldWorkflow.OldDefaultGsnapRaises | OldWorkflow.OldDefaultGsnapFixed |
| definedworkflows/rnaseq/rnaseqworkflow.py:411-455 | the paired-end file names replace "sra" instead of ".sra", and with several runs the flag is spelled --split_files | a paired-end run SRR1.sra expected as SRR1._1.fastq.gz | SRR1_1.fastq.gz and SRR1_2.fastq.gz, and --split-files for any number of runs | not executed | OldWorkflow.PairedDumpAsWritten | OldWorkflow.PairedDumpFixed |
