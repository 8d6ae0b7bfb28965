# Submitty integration-test harness, modelled in Dafny

Submitty's integration tests are Python packages. Each test module declares its work with two
decorators from `tests/integrationTests/lib.py`:

- `@prebuild` declares an optional setup action;
- `@testcase` declares the testcases.

The harness keeps the declarations in the `TO_RUN` table, one `TestcaseFile` record per module.
`run_tests(names)` then runs each named module in order. For each module it:

1. prints a banner;
2. calls the prebuild action;
3. builds the module's testcase directory with CMake and `make`;
4. runs the testcases, reporting each raised exception with the test module's line
   (from the traceback);
5. prints a tally.

At the end it prints a summary of the modules that passed and exits with status 1 unless all
of them did. `run_all()` runs every declared module.

The testcases use the `TestcaseWrapper` checks:

- `build`, `run_compile`, `run_run` and `run_validator` run programs and check their exit codes;
- `diff` compares two text files;
- `json_diff` compares JSON files up to the order of arrays and objects, through
  `json_ordered`;
- `empty_file` and `empty_json_diff` check for empty output.

Every message goes through the module's own `print`. It writes the message to standard output
and appends it to a log file, whose name is taken from the time of the first call. The
coloured banners and verdicts are written by `ASCIIEscapeManager` context managers.

The model, module by module:

| module | file | models |
|---|---|---|
| `Text` | `text.dfy` | `sep.join`, `str` of integers, `str.upper` |
| `PosixPath` | `paths.dfy` | `posixpath.dirname`, `basename` and `join` |
| `SeqFacts` | `seqs.dfy` | the multiset facts used by the sorting proofs |
| `CanonOrder` | `canon_order.dfy` | Python 3's `<`, and `sorted`, on the values `json_ordered` builds |
| `JsonOrdered` | `json.dfy` | `json_ordered` |
| `TestcaseWrapper` | `wrapper.dfy` | the checks of `TestcaseWrapper`, as functions returning `Ok(())` or the exception raised |
| `Escape` | `style.dfy` | `ASCIIEscapeManager` and its predefined styles |
| `Logging` | `logger.dfy` | `print` and `LOG_FILE`, as a `Logger` class holding the log file's name and everything output so far |
| `Registration` | `registry.dfy` | `TestcaseFile`, `TO_RUN` (a `Registry` class) and the effect of the two decorators |
| `Runner` | `runner.dfy` | `run_tests` and `run_all` as methods with the source's loops, each proved against a function giving its whole output |

### Behaviour the model makes explicit

- **Failure line.** The traceback scan runs from the innermost frame outwards and lets every
  `__init__.py` frame overwrite the line found so far. So a failure is reported with the line
  of the *outermost* `__init__.py` frame, or with `None` when there is none.
- **Unregistered names.** Looking up a name nobody registered adds a fresh `TestcaseFile`,
  which has no `wrapper` attribute. Its setup fails with the `AttributeError`, and the module
  does not pass.
- **`build()` ignores some errors.** Every `OSError` from the three `mkdir` calls is swallowed,
  not only "already exists". One `try` covers all three calls, so the first one that fails
  skips the others. The exit code of `cp` is never looked at.
- **`diff` exit codes.** `diff` raises only on exit code 1. Exit code 2 (trouble) passes.
- **Canonical JSON forms.**
  - `{}` and `[]` have the same canonical form.
  - Two `null`s in one array cannot be sorted.
  - An array mixing numbers and strings cannot be sorted.
  - A failed sort raises `TypeError` from inside the check.
- **`empty_json_diff` joins twice.** It hands `json_diff` names that already have a directory
  part, so both are joined onto the testcase directory again. That is harmless for an
  absolute testcase directory. For a relative one, the directory appears twice in the path.
- **Log file name.** The name keeps the first 17 of the 20 timestamp digits, i.e. the time to
  the millisecond.

## Model

| member | source | states |
|---|---|---|
| Text.JoinWith | tests/integrationTests/lib.py:41 | `sep.join(parts)`; SplitJoinRoundTrip proves that splitting at the separator gives the parts back |
| Text.SplitJoinRoundTrip | tests/integrationTests/lib.py:41 | joining arguments with a one-character separator that none contains can be undone by splitting at it |
| Text.NatToStringRoundTrip | tests/integrationTests/lib.py:64 | the decimal text `str` gives a non-negative integer reads back as that integer |
| Text.NatToString | tests/integrationTests/lib.py:121 | `str(n)` is a non-empty run of decimal digits, with no leading zero unless n is 0 |
| Text.IntToString | tests/integrationTests/lib.py:190 | `str(i)` starts with a minus sign exactly when i is negative, is decimal digits otherwise, and the digits read back as the magnitude of i, including for a negative exit code |
| Text.AsciiUpper | tests/integrationTests/lib.py:96 | `key.upper()` on ASCII letters; its meaning is stated by AsciiUpperIdempotent |
| Text.AsciiUpperIdempotent | tests/integrationTests/lib.py:96 | `key.upper()` keeps the length, turns each lower-case letter into its own capital, keeps every other character in place, leaves no lower-case letter, and is idempotent |
| PosixPath.Basename | tests/integrationTests/lib.py:119 | the basename is the suffix of the path after its last slash: it contains no slash, and is either the whole path or preceded by a slash |
| PosixPath.Dirname | tests/integrationTests/lib.py:241 | `os.path.dirname`; DirnameEmptyIff and DirnameOfJoin state what it gives |
| PosixPath.DirnameEmptyIff | tests/integrationTests/lib.py:241 | `not os.path.dirname(f)` holds exactly when f contains no slash |
| PosixPath.DirnameOfJoin | tests/integrationTests/lib.py:241-247 | `dirname` undoes joining a slash-free name onto a directory that does not end in a slash |
| PosixPath.Join | tests/integrationTests/lib.py:242-247 | `os.path.join(a, b)`; JoinRelative, BasenameOfJoin and AbsoluteNameReplacesBase state what it gives |
| PosixPath.JoinRelative | tests/integrationTests/lib.py:242-247 | joining a relative name keeps the base as prefix and the name as suffix, adds at most one slash and only when the base lacks a trailing one, and always separates a non-empty base from the name by a slash |
| PosixPath.BasenameOfJoin | tests/integrationTests/lib.py:119 | the basename of a slash-free name joined onto any directory is that name |
| CanonOrder.InsertionSort | tests/integrationTests/lib.py:270-272 | a reference sort: its result is sorted and is a permutation of its input |
| CanonOrder.SortedUnique | tests/integrationTests/lib.py:270-272 | two sorted arrangements of one multiset are equal, so `sorted` has exactly one possible result |
| CanonOrder.LessThan | tests/integrationTests/lib.py:270-272 | Python 3's `a < b` on the values `json_ordered` builds, None where it raises `TypeError`; LessThanAgrees and ComparableSymmetric state its meaning |
| CanonOrder.ListLessThan | tests/integrationTests/lib.py:270-272 | `<` on Python lists and tuples: the first differing item decides, a proper prefix is smaller; ListLessThanAgrees states its meaning |
| CanonOrder.LessThanAgrees | tests/integrationTests/lib.py:270-272 | wherever Python's `<` answers, it agrees with the total order the sort uses |
| CanonOrder.AllComparablePermutation | tests/integrationTests/lib.py:270-272 | whether `sorted` raises `TypeError` depends only on the multiset of the items, not their order |
| CanonOrder.SortCanon | tests/integrationTests/lib.py:270-272 | `sorted` succeeds exactly when every two items compare; it then returns a permutation of the items in which no later item is `<` an earlier one |
| CanonOrder.SortCanonPermutation | tests/integrationTests/lib.py:270-272 | two arrangements of the same items sort identically, failure included |
| CanonOrder.SortSingleton | tests/integrationTests/lib.py:272 | a one-item list sorts to itself whatever the item |
| CanonOrder.PyEqIff | tests/integrationTests/lib.py:301 | Python's `==` on the canonical values is structural equality once every bool is read as its number (`True == 1`, `False == 0`), at any depth |
| CanonOrder.PyEqEquivalence | tests/integrationTests/lib.py:301 | Python's `==` on canonical values is reflexive, symmetric and transitive |
| CanonOrder.PyEqBoolNumber | tests/integrationTests/lib.py:301 | a bool is `==` to its number, on its own and inside a tuple in a list, although the two are different values |
| JsonOrdered.Ordered | tests/integrationTests/lib.py:268-274 | scalars are returned unchanged; arrays and objects become sorted lists, no later item `<` an earlier one, with one item per element or member |
| JsonOrdered.OrderedElems | tests/integrationTests/lib.py:272 | each array element is canonicalised on its own, in array order |
| JsonOrdered.OrderedMember | tests/integrationTests/lib.py:270 | a member canonicalises to a `(key, value)` tuple carrying the member's own key |
| JsonOrdered.OrderedMembers | tests/integrationTests/lib.py:270 | each object member becomes its `(key, json_ordered(value))` tuple, in iteration order |
| JsonOrdered.SortedList | tests/integrationTests/lib.py:270-272 | the sorted list exists exactly when no child raised and all children compare; it is then a sorted permutation of the children's canonical forms |
| JsonOrdered.ArrayPermutation | tests/integrationTests/lib.py:272 | reordering an array's elements leaves its canonical form unchanged |
| JsonOrdered.ObjectPermutation | tests/integrationTests/lib.py:270 | reordering an object's members leaves its canonical form unchanged |
| JsonOrdered.ArrayCongruence | tests/integrationTests/lib.py:272 | replacing elements by ones with equal canonical forms leaves the array's canonical form unchanged |
| JsonOrdered.ObjectCongruence | tests/integrationTests/lib.py:270 | replacing member values by ones with equal canonical forms, keys kept, leaves the object's canonical form unchanged |
| JsonOrdered.ReorderInvariant | tests/integrationTests/lib.py:268-274 | reordering arrays and objects at every nesting depth leaves the canonical form unchanged |
| JsonOrdered.EmptyContainersCollide | tests/integrationTests/lib.py:269-272 | `{}` and `[]` both canonicalise to the empty list |
| JsonOrdered.DistinctKeysNeverClash | tests/integrationTests/lib.py:270 | an object with distinct keys canonicalises exactly when every member value does: sorting the tuples never raises |
| JsonOrdered.ObjectItemsAreMembers | tests/integrationTests/lib.py:270 | every item of an object's canonical form is a tuple keyed by one of the object's keys |
| JsonOrdered.NullsInArrays | tests/integrationTests/lib.py:272 | `[null]` canonicalises, while `[null, null]` raises in `sorted` |
| JsonOrdered.MixedArrayRaises | tests/integrationTests/lib.py:272 | an array holding a number and a string raises in `sorted` |
| TestcaseWrapper.WithDefaultDir | tests/integrationTests/lib.py:240-244 | a name with a slash is kept; a slash-free one is joined below the default directory, and then contains a slash |
| TestcaseWrapper.ResolvePair | tests/integrationTests/lib.py:236-247 | with the second name omitted and the first containing a slash, both paths are the same file |
| TestcaseWrapper.OneArgumentLayout | tests/integrationTests/lib.py:231-247 | one bare name compares `<testcase>/data/<name>` against `<testcase>/validation/<name>` |
| TestcaseWrapper.DirectoryVerbatim | tests/integrationTests/lib.py:240-247 | names that contain a slash get no `data/` or `validation/` prefix; they are only joined onto the testcase directory |
| TestcaseWrapper.AbsoluteNameReplacesBase | tests/integrationTests/lib.py:246-247 | absolute names are used unchanged, whatever the testcase directory |
| TestcaseWrapper.Build | tests/integrationTests/lib.py:170-196 | `build()` returns exactly when both cmake and make exit 0; otherwise it raises `RuntimeError` "Build (cmake) exited with exit code " and cmake's code when cmake failed, else the same for make |
| TestcaseWrapper.BuildReportsCmakeFirst | tests/integrationTests/lib.py:186-196 | a failing cmake is what is reported, whatever make would do |
| TestcaseWrapper.RunProgram | tests/integrationTests/lib.py:199-229 | each grading program's check returns exactly when its exit code is 0; otherwise the `RuntimeError` names the program and ends with the code |
| TestcaseWrapper.CompareText | tests/integrationTests/lib.py:249-262 | the comparison returns exactly when both files exist and `diff` did not exit with code 1 |
| TestcaseWrapper.Diff | tests/integrationTests/lib.py:236-262 | `diff` returns exactly when both resolved files exist and the process did not exit with code 1 |
| TestcaseWrapper.CompareTextErrorOrder | tests/integrationTests/lib.py:249-252 | a missing file is reported before the process is looked at, the first file before the second |
| TestcaseWrapper.DiffRaisesOnlyOnExitOne | tests/integrationTests/lib.py:256-262 | once both files exist, `diff` raises exactly on exit code 1, naming both paths and quoting the output; every other code passes |
| TestcaseWrapper.CompareJson | tests/integrationTests/lib.py:292-302 | the comparison returns exactly when both files exist, both parse, and their canonical forms exist and are `==` in Python's sense, where `True == 1` and `False == 0` |
| TestcaseWrapper.JsonDiff | tests/integrationTests/lib.py:279-302 | `json_diff` returns exactly when both resolved files exist, parse, and have canonical forms that exist and are `==` in Python's sense |
| TestcaseWrapper.CompareJsonErrorOrder | tests/integrationTests/lib.py:292-302 | the error raised follows the source's order: first file missing, then second missing, then first undecodable, then second undecodable, then a canonical form that cannot be sorted (`TypeError`), and last the "JSON files p1 and p2 are different" error when the forms are not `==` |
| TestcaseWrapper.CompareJsonSymmetric | tests/integrationTests/lib.py:301 | acceptance does not depend on which file is the expected one |
| TestcaseWrapper.CompareJsonAcceptsReordering | tests/integrationTests/lib.py:276-302 | a file equal to another up to the order of arrays and object members, at any depth, is accepted |
| TestcaseWrapper.CompareJsonEmptyContainers | tests/integrationTests/lib.py:301 | `{}` compared with `[]` is accepted |
| TestcaseWrapper.CompareJsonBoolAsNumber | tests/integrationTests/lib.py:301 | `{"x": true}` against `{"x": 1}`, and `false` against `0`, are accepted, as Python's `True == 1` makes them |
| TestcaseWrapper.CompareJsonDifferentValues | tests/integrationTests/lib.py:301-302 | `{"a": 1}` compared with `{"a": 2}` raises the "are different" error |
| TestcaseWrapper.SingletonOrdered | tests/integrationTests/lib.py:270 | a one-member object canonicalises to the list holding its one tuple |
| TestcaseWrapper.EmptyFile | tests/integrationTests/lib.py:304-312 | `empty_file` returns exactly when the resolved file exists and has size 0 |
| TestcaseWrapper.EmptyFileErrors | tests/integrationTests/lib.py:309-312 | a missing file raises "should exist", never "should be empty"; an existing file of non-zero size raises "should be empty" |
| TestcaseWrapper.EmptyJsonDiff | tests/integrationTests/lib.py:314-321 | `empty_json_diff` is the JSON comparison of the resolved name against the installation's empty-JSON file, both joined onto the testcase directory once more |
| TestcaseWrapper.EmptyJsonFilePath | tests/integrationTests/lib.py:319-320 | with an absolute install directory, the expected file is `<install>/test_suite/integrationTests/data/empty_json_diff_file.json` whatever the testcase directory |
| TestcaseWrapper.DoubledDataPath | tests/integrationTests/lib.py:316-318 | with a relative testcase directory, the name resolved twice ends up under that directory twice |
| TestcaseWrapper.EmptyJsonDiffAbsolute | tests/integrationTests/lib.py:314-321 | with an absolute testcase directory, a bare name compares `<testcase>/data/<name>` with the installation's empty-JSON file |
| TestcaseWrapper.EmptyJsonDiffRelativeBase | tests/integrationTests/lib.py:314-321 | with a relative testcase directory `t`, the file compared is `t/t/data/<name>` |
| Logging.Message | tests/integrationTests/lib.py:41 | the text a `print` call produces; MessageEndsWith and MessageRoundTrip state its meaning |
| Logging.MessageEndsWith | tests/integrationTests/lib.py:41 | every message ends with its `end` |
| Logging.MessageRoundTrip | tests/integrationTests/lib.py:41 | with a one-character separator that no argument contains, the arguments can be recovered from the message |
| Logging.DropLastThree | tests/integrationTests/lib.py:45 | `stamp[:-3]` is a prefix of the stamp three characters shorter, or empty for a shorter stamp |
| Logging.LogNameKeepsMilliseconds | tests/integrationTests/lib.py:43-45 | a 20-digit timestamp gives a 17-character name: the time to the millisecond |
| Logging.NextLogFile | tests/integrationTests/lib.py:42-45 | after any call a log file is named, and a name once set is kept |
| Logging.Settle | tests/integrationTests/lib.py:42-45 | the log file's name after a run of calls; LogFileSetOnce and LogFileNamedByFirstCall state it |
| Logging.LogFileSetOnce | tests/integrationTests/lib.py:42-45 | once the log file is named, no later call renames it, whatever its time |
| Logging.LogFileNamedByFirstCall | tests/integrationTests/lib.py:42-45 | a run of calls names the log file after the time of the first call |
| Logging.PlainOutputLoggedVerbatim | tests/integrationTests/lib.py:46-48 | output made only by `print` reaches the log file exactly as it reaches standard output |
| Logging.LoggedNoLonger | tests/integrationTests/lib.py:46-48 | the log file never holds more than standard output |
| Logging.Logger.constructor | tests/integrationTests/lib.py:20 | at the start no log file is named and nothing has been output |
| Logging.Logger.Print | tests/integrationTests/lib.py:24-48 | `print` appends the message to both the log file and standard output, and names the log file on the first call |
| Logging.Logger.Write | tests/integrationTests/lib.py:48 | `sys.stdout.write` appends to standard output only |
| Escape.MakeStyle | tests/integrationTests/lib.py:63-64 | a manager keeps `str(code)` of each code, in order |
| Escape.EnterSequence | tests/integrationTests/lib.py:66-67 | what `__enter__` writes (`__exit__` always writes `ResetSequence`, lines 69-70); EnterSequenceShape and EnterSequenceRoundTrip state its meaning |
| Escape.EnterSequenceShape | tests/integrationTests/lib.py:66-67 | what `__enter__` writes starts with the control sequence introducer and ends with `m` |
| Escape.EnterSequenceRoundTrip | tests/integrationTests/lib.py:63-67 | the codes can be read back from the sequence `__enter__` writes, by splitting what lies between the introducer and `m` at `;` |
| Escape.PredefinedStyles | tests/integrationTests/lib.py:75-86 | each predefined manager is the one built from its single code |
| Escape.Combine | tests/integrationTests/lib.py:72-73 | `a + b`; MakeStyleCombine states its meaning |
| Escape.MakeStyleCombine | tests/integrationTests/lib.py:72-73 | adding two managers gives the manager of the concatenated code lists |
| Registration.Lookup | tests/integrationTests/lib.py:57 | the record `TO_RUN[key]` yields, fresh for a new key; FreshRecord and Touch state it |
| Registration.Touch | tests/integrationTests/lib.py:57 | a `TO_RUN[key]` lookup makes the key present and changes no record |
| Registration.Declare | tests/integrationTests/lib.py:336-337 | the table after one decorator; PrebuildReplaces, TestcaseAppends and DeclareKeepsWellFormed state its meaning (testcase side: lines 369-370) |
| Registration.PrebuildReplaces | tests/integrationTests/lib.py:324-338 | `@prebuild` replaces its module's prebuild action and sets its wrapper; the module's testcases and every other module are unchanged |
| Registration.TestcaseAppends | tests/integrationTests/lib.py:342-371 | `@testcase` appends one testcase to the end of its module's list and sets its wrapper; the prebuild action and every other module are unchanged |
| Registration.FreshRecord | tests/integrationTests/lib.py:51-57 | a module nothing was declared for has the no-op prebuild, no testcases and no wrapper |
| Registration.TouchKeepsWellFormed | tests/integrationTests/lib.py:57 | a lookup keeps the table's invariant: each key listed once in insertion order, each record belonging to its key |
| Registration.UpdateKeepsWellFormed | tests/integrationTests/lib.py:336-337 | replacing a present key's record by one belonging to that key keeps the invariant |
| Registration.DeclareKeepsWellFormed | tests/integrationTests/lib.py:324-371 | each decorator keeps the table's invariant |
| Registration.Replay | tests/integrationTests/lib.py:324-371 | the table after all declarations of a suite, in order; ReplayWellFormed, ReplayOrder and ReplayRecords state it against independent definitions |
| Registration.ReplayWellFormed | tests/integrationTests/lib.py:324-371 | loading any sequence of declarations leaves a well-formed table |
| Registration.ReplayOrder | tests/integrationTests/lib.py:57 | the table's keys are the declaring modules, in the order each first declared something |
| Registration.ReplayRecords | tests/integrationTests/lib.py:324-371 | after loading, a module's record holds exactly its declared testcases, in order, and its last declared prebuild |
| Registration.Registry.constructor | tests/integrationTests/lib.py:57 | `TO_RUN` starts empty and well formed |
| Registration.Registry.Get | tests/integrationTests/lib.py:93 | `TO_RUN[key]` returns the key's record, fresh if the key is new, and adds a missing key at the end |
| Registration.Registry.AddPrebuild | tests/integrationTests/lib.py:324-338 | the decorator's update of `TO_RUN` is one `@prebuild` declaration, and keeps the table well formed |
| Registration.Registry.AddTestcase | tests/integrationTests/lib.py:342-371 | the decorator's update of `TO_RUN` is one `@testcase` declaration, and keeps the table well formed |
| Runner.InitLine | tests/integrationTests/lib.py:114-120 | the line reported for a failure; InitLineNoneIff and InitLineIsOutermost state its meaning, and FailureLine is proved to compute it |
| Runner.FirstMatch | tests/integrationTests/lib.py:114-120 | when a matching frame exists, the line found is that of a matching frame at a position with no matching frame before it |
| Runner.FailureLine | tests/integrationTests/lib.py:114-120 | the backward scan of the traceback ends with the line of the outermost `__init__.py` frame |
| Runner.InitLineNoneIff | tests/integrationTests/lib.py:114-120 | no line is found exactly when no frame is an `__init__.py` frame |
| Runner.InitLineIsOutermost | tests/integrationTests/lib.py:114-120 | a line found is that of an `__init__.py` frame with no `__init__.py` frame outside it |
| Runner.Failures | tests/integrationTests/lib.py:124 | no more testcases fail than there are |
| Runner.NoFailuresIff | tests/integrationTests/lib.py:109-125 | the failure count is zero exactly when every testcase returns |
| Runner.StyledPrint | tests/integrationTests/lib.py:66-70 | the output of `with style: print(text)`; PrintStyled is proved to produce it |
| Runner.ReportChunks | tests/integrationTests/lib.py:112-123 | what is printed about a testcase once it returned or raised; ReportFailure is proved to produce it |
| Runner.CasesChunks | tests/integrationTests/lib.py:108-124 | the output of a module's testcases, numbered from 1; RunCases is proved to produce it |
| Runner.TallyChunks | tests/integrationTests/lib.py:125-131 | the module's tally; TallyGreenIff states its meaning |
| Runner.TallyGreenIff | tests/integrationTests/lib.py:125-131 | the module's tally is green ("All testcases passed") exactly when every testcase returned |
| Runner.SetupError | tests/integrationTests/lib.py:98-106 | the exception that ends a module's `try` block, if any; SetupFailureSkipsTestcases, PrebuildFailureSkipsBuild and UnregisteredModuleFails state its meaning, and RunSetup is proved to compute it |
| Runner.ModuleChunks | tests/integrationTests/lib.py:93-136 | one module's whole output; RunModule is proved to produce it, SetupFailureSkipsTestcases states what a failed setup prints |
| Runner.ModulePassed | tests/integrationTests/lib.py:94-136 | the module counts as passed; ModulePassedIff states it |
| Runner.ModulePassedIff | tests/integrationTests/lib.py:94-136 | a module passes exactly when its setup succeeded and every testcase returned |
| Runner.SetupFailureSkipsTestcases | tests/integrationTests/lib.py:98-107 | when the prebuild or the build fails, no testcase runs: the output does not depend on the testcases, and the module fails |
| Runner.PrebuildFailureSkipsBuild | tests/integrationTests/lib.py:98-106 | a raising prebuild ends the setup before the build: the build's outcome is irrelevant and the prebuild's message is reported |
| Runner.UnregisteredModuleFails | tests/integrationTests/lib.py:93-106 | a name nobody registered fails its setup on the missing `wrapper` attribute, before any build, and does not pass |
| Runner.PassedModules | tests/integrationTests/lib.py:135-136 | the count of passed modules never exceeds the number of names |
| Runner.ModulesChunks | tests/integrationTests/lib.py:92-136 | the output of all named modules; RunModules is proved to produce it, ModulesChunksAppend splits it |
| Runner.ModulesChunksAppend | tests/integrationTests/lib.py:92-136 | the suite's output and pass count split at any point of the list of names: modules run independently, one after another |
| Runner.AllModulesPassedIff | tests/integrationTests/lib.py:135-137 | the pass count equals the number of names exactly when every named module passed |
| Runner.SummaryChunks | tests/integrationTests/lib.py:137-142 | the suite's closing verdict; ExitStatusIff and Summarise state it |
| Runner.SuiteChunks | tests/integrationTests/lib.py:90-143 | everything `run_tests` outputs; RunTests is proved to produce it |
| Runner.ExitStatus | tests/integrationTests/lib.py:137-143 | the status the process ends with; ExitStatusIff states its meaning, RunTests is proved to return it |
| Runner.ExitStatusIff | tests/integrationTests/lib.py:137-143 | the exit status is 0 exactly when every module passed, and the summary then says so in green; otherwise it is 1, and the summary says in red how many of the modules passed, out of how many |
| Runner.TouchAllLookup | tests/integrationTests/lib.py:93 | the lookups of the run change no module's record |
| Runner.TouchAllPresent | tests/integrationTests/lib.py:147-148 | looking up keys already present leaves `TO_RUN` as it was |
| Runner.PrintStyled | tests/integrationTests/lib.py:66-70 | `with style: print(text)` writes the style's sequence, prints the text and writes the reset |
| Runner.CallPrebuild | tests/integrationTests/lib.py:330-333 | the prebuild wrapper announces itself, prints "Done" only if the function returned, and passes on its exception |
| Runner.CallTestcase | tests/integrationTests/lib.py:355-365 | the testcase wrapper announces the testcase, prints PASSED or FAILED, and re-raises exactly when the function raised |
| Runner.ReportFailure | tests/integrationTests/lib.py:112-123 | a failure is reported in red with the testcase's index, the line found and the exception's message |
| Runner.RunCase | tests/integrationTests/lib.py:110-124 | one inner iteration produces the testcase's output and tells whether it raised |
| Runner.RunCases | tests/integrationTests/lib.py:108-124 | the inner loop outputs each testcase in order, numbered from 1, and leaves the number that returned |
| Runner.RunSetup | tests/integrationTests/lib.py:97-106 | the `try` block ends with the first exception of the prebuild, the missing wrapper or the build, and reports it |
| Runner.RunTesting | tests/integrationTests/lib.py:107-131 | after a successful setup the testcases and the tally are output, and the module passes exactly when none raised |
| Runner.RunModule | tests/integrationTests/lib.py:93-136 | one module's whole output, and whether it passed |
| Runner.RunNamed | tests/integrationTests/lib.py:93 | the module is looked up in `TO_RUN` and then run |
| Runner.Summarise | tests/integrationTests/lib.py:137-143 | the summary is green with status 0 when every module passed, red with the count and status 1 otherwise |
| Runner.RunStep | tests/integrationTests/lib.py:92-136 | one outer iteration extends the output, the table and the pass count by the next name |
| Runner.RunModules | tests/integrationTests/lib.py:91-136 | the outer loop outputs every named module in order and counts those that passed |
| Runner.RunTests | tests/integrationTests/lib.py:90-143 | `run_tests` outputs every module and then the summary, adds any missing name to `TO_RUN`, and exits with the status of the suite's verdict |
| Runner.RunAll | tests/integrationTests/lib.py:147-148 | `run_all` runs every declared module in declaration order and leaves `TO_RUN` unchanged |

## Left out

- File system and processes are inputs, not effects:
  - the files a check can see are a map from path to size and parsed content;
  - the exit codes of cmake, make and the grading programs are parameters, given per testcase
    directory for the build;
  - the output of `diff` is a parameter.
- Not modelled: the files `build()` creates (`log/`, `build/`, `bin/`, the copied
  `CMakeLists.txt`, the output logs). Failures to open those files are not modelled either.
- Build: when an existing `log/` makes the first `mkdir` fail, the later `mkdir` calls are
  skipped. If `build/` is then missing, the `cmake` call raises `FileNotFoundError`, not the
  `RuntimeError` the model gives from the exit code. The model takes the exit codes of cmake
  and make as given.
- The bodies of user prebuild and testcase functions are not modelled. Each is a fixed
  `Behaviour`: it returns, or it raises with a message and a traceback. The traceback is taken
  as given, as is `sys.exc_info()`.
- Only exceptions derived from `Exception` are modelled. A `BaseException` escaping a
  testcase is not.
- `sys.exit(1)` is modelled as the returned exit status.
- `inspect.stack()` and `inspect.getmodule` are not modelled. A decorator receives the
  module's name and directory as parameters.
- `datetime.now()` is a parameter: the formatted timestamp.
  - RunTests: one stamp is used for every `print` of a run. Since only the first call names
    the log file, that does not change what is named.
- `LOG_DIR`, `SUBMITTY_INSTALL_DIR` and `GRADING_SOURCE_DIR` are not modelled. The log file
  is modelled by its name and its contents, and the installation directory is the
  `installDir` parameter.
- The text `out.decode()` is given as a string. A decoding error is not modelled.
- JsonOrdered.Ordered: JSON numbers are integers. Floats are not modelled.
- CanonOrder.LessThan: `bool` against `int` comparisons with `<` are left out. They are treated
  as raising, although Python compares them as numbers. This includes tuples and lists whose
  first structurally different items are such a pair: `("x", True) < ("x", 1)` is treated as
  raising, where Python finds the items `==` and answers False. The `!=` of `json_diff` is
  modelled with Python's meaning (CanonOrder.PyEq).
- CanonOrder.SortCanon: Timsort itself is not modelled. The result is characterised instead:
  - it is the one arrangement with no inversion, proved unique;
  - the `TypeError` condition is stated as "some two items do not compare". Python may not
    happen to compare every such pair during its sort.
- JsonOrdered.Apply: only permutations at each level are modelled. Duplicate keys collapsed by
  `json.load` are not.
- Text.AsciiUpper: `str.upper()` is modelled on ASCII letters only. Other characters are kept.
- Registration: records are held by value in the table. Sharing between the decorators'
  `TestcaseWrapper` objects and records is not modelled.
