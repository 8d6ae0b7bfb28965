/** `TestcaseWrapper`: the checks a testcase runs against the files of its testcase directory.
    Every check either returns normally (`Ok(())`) or raises (`Err`), and takes what it would
    read from the file system, or from an external process, as arguments. */
module TestcaseWrapper {
  import opened Wrappers
  import opened Text
  import opened PosixPath
  import opened CanonOrder
  import opened JsonOrdered

  /** The wrapper object: all it holds is the directory of its testcase module. */
  datatype Wrapper = Wrapper(testcasePath: string)

  /** The exceptions a check raises. `RuntimeError` carries the harness's own message;
      `DecodeError` is `json.load` refusing the named file; `SortError` is the `TypeError`
      that `sorted` raises inside `json_ordered`. */
  datatype Failure =
    | RuntimeError(message: string)
    | DecodeError(path: string)
    | SortError

  /** A check returns nothing or raises. */
  type Outcome = Result<(), Failure>

  /** What the checks can learn about one regular file: its size (`os.stat`) and what
      `json.load` makes of it (None when it raises). */
  datatype File = File(size: nat, parsed: Option<Json>)

  /** The regular files that exist, by path (`os.path.isfile` is membership). */
  type Files = map<string, File>

  // ---------------------------------------------------------------- file-name resolution

  /** A name without a directory part is placed in `dir`; any other name is kept. */
  function WithDefaultDir(dir: string, name: string): (r: string)
    ensures '/' in name ==> r == name
    ensures '/' !in name ==> r == Join(dir, name)
    ensures dir != "" && dir[|dir| - 1] != '/' ==> '/' in r
  {
    DirnameEmptyIff(name);
    JoinKeepsSlash(dir, name);
    if Dirname(name) == "" then Join(dir, name) else name
  }

  /** The two paths `diff` and `json_diff` compare: a missing second name defaults to the first,
      the actual file defaults to `data/` and the expected one to `validation/`, and both are
      joined onto the testcase directory. */
  function ResolvePair(w: Wrapper, file1: string, file2: string): (r: (string, string))
    ensures file2 == "" && '/' in file1 ==> r.0 == r.1
  {
    var second := if file2 == "" then file1 else file2;
    (Join(w.testcasePath, WithDefaultDir("data", file1)),
     Join(w.testcasePath, WithDefaultDir("validation", second)))
  }

  /** With one bare file name, the actual file is `<testcase>/data/<name>` and the expected one
      `<testcase>/validation/<name>`. */
  lemma OneArgumentLayout(w: Wrapper, name: string)
    requires '/' !in name && name != ""
    requires w.testcasePath != "" && w.testcasePath[|w.testcasePath| - 1] != '/'
    ensures ResolvePair(w, name, "")
         == (w.testcasePath + "/data/" + name, w.testcasePath + "/validation/" + name)
  {
    var base := w.testcasePath;
    assert !IsAbsolute(name) by { assert name[0] in name; }
    JoinCases("data", name);
    JoinCases("validation", name);
    var d, v := "data/" + name, "validation/" + name;
    assert Join("data", name) == d && Join("validation", name) == v;
    assert !IsAbsolute(d) && !IsAbsolute(v) by { assert d[0] == 'd' && v[0] == 'v'; }
    JoinCases(base, d);
    JoinCases(base, v);
    assert base + "/" + d == base + "/data/" + name;
    assert base + "/" + v == base + "/validation/" + name;
  }

  /** A name with a directory part gets no `data/` or `validation/` prefix. */
  lemma DirectoryVerbatim(w: Wrapper, file1: string, file2: string)
    requires '/' in file1 && '/' in file2
    ensures ResolvePair(w, file1, file2) == (Join(w.testcasePath, file1), Join(w.testcasePath, file2))
  {
  }

  /** An absolute name is used as it is, whatever the testcase directory. */
  lemma AbsoluteNameReplacesBase(w: Wrapper, file1: string, file2: string)
    requires IsAbsolute(file1) && IsAbsolute(file2)
    ensures ResolvePair(w, file1, file2) == (file1, file2)
  {
    assert '/' in file1 && '/' in file2 by { assert file1[0] == '/' && file2[0] == '/'; }
  }

  // ---------------------------------------------------------------- build and the grading programs

  /** The exit codes of the two processes `build()` waits for. */
  datatype BuildCodes = BuildCodes(cmake: int, make: int)

  /** `build()`: `make` runs only after `cmake` succeeded, and a non-zero exit code of either
      raises. Creating the directories and copying the CMake file never raise: an `OSError` from
      `mkdir` is swallowed and the exit code of `cp` is not looked at. */
  function Build(codes: BuildCodes): (r: Outcome)
    ensures r.Ok? <==> codes.cmake == 0 && codes.make == 0
    ensures r.Err? ==> r.error.RuntimeError?
    ensures codes.cmake != 0 ==> StartsWith(r.error.message, "Build (cmake) exited with exit code ")
                                 && EndsWith(r.error.message, IntToString(codes.cmake))
    ensures codes.cmake == 0 && codes.make != 0
            ==> StartsWith(r.error.message, "Build (make) exited with exit code ")
                && EndsWith(r.error.message, IntToString(codes.make))
  {
    if codes.cmake != 0 then
      Err(RuntimeError("Build (cmake) exited with exit code " + IntToString(codes.cmake)))
    else if codes.make != 0 then
      Err(RuntimeError("Build (make) exited with exit code " + IntToString(codes.make)))
    else Ok(())
  }

  /** A failing `cmake` is what is reported, whatever `make` would have done. */
  lemma BuildReportsCmakeFirst(codes: BuildCodes)
    requires codes.cmake != 0
    ensures Build(codes) == Build(BuildCodes(codes.cmake, 0))
    ensures StartsWith(Build(codes).error.message, "Build (cmake)")
  {
  }

  /** The three grading programs a testcase can run. */
  datatype Program = CompileOut | RunOut | ValidateOut

  /** How each program names itself in its error message. */
  function ProgramLabel(p: Program): string
  {
    match p
    case CompileOut => "Compile"
    case RunOut => "run.out"
    case ValidateOut => "Validator"
  }

  /** `run_compile()`, `run_run()` and `run_validator()` given the program's exit code. */
  function RunProgram(p: Program, exitCode: int): (r: Outcome)
    ensures r.Ok? <==> exitCode == 0
    ensures r.Err? ==> r.error.RuntimeError?
                       && StartsWith(r.error.message, ProgramLabel(p))
                       && EndsWith(r.error.message, IntToString(exitCode))
  {
    if exitCode != 0 then Err(RuntimeError(ProgramLabel(p) + " exited with exit code " + IntToString(exitCode)))
    else Ok(())
  }

  // ---------------------------------------------------------------- diff

  function MissingFile(path: string): Failure
  {
    RuntimeError("File " + path + " does not exist")
  }

  /** The comparison `diff` makes of two resolved paths, given the exit code and the output of
      the `diff` process. */
  function CompareText(p1: string, p2: string, files: Files, exitCode: int, output: string): (r: Outcome)
    ensures r.Ok? <==> p1 in files && p2 in files && exitCode != 1
  {
    if p1 !in files then Err(MissingFile(p1))
    else if p2 !in files then Err(MissingFile(p2))
    else if exitCode == 1 then
      Err(RuntimeError("Difference between " + p1 + " and " + p2 + " exited with exit code "
                       + IntToString(exitCode) + "\n\nDiff:\n" + output))
    else Ok(())
  }

  /** `diff(file1, file2)`. */
  function Diff(w: Wrapper, file1: string, file2: string, files: Files, exitCode: int, output: string): (r: Outcome)
    ensures var (p1, p2) := ResolvePair(w, file1, file2);
      r.Ok? <==> p1 in files && p2 in files && exitCode != 1
  {
    var (p1, p2) := ResolvePair(w, file1, file2);
    CompareText(p1, p2, files, exitCode, output)
  }

  /** A missing file is reported before the process is looked at, the first file before the
      second. */
  lemma CompareTextErrorOrder(p1: string, p2: string, files: Files, exitCode: int, output: string)
    ensures p1 !in files ==> CompareText(p1, p2, files, exitCode, output) == Err(MissingFile(p1))
    ensures p1 in files && p2 !in files ==> CompareText(p1, p2, files, exitCode, output) == Err(MissingFile(p2))
  {
  }

  /** Once both files exist, `diff` raises exactly when the process exits with code 1, naming
      both paths and quoting the process output; code 0, 2 or any other passes. */
  lemma DiffRaisesOnlyOnExitOne(p1: string, p2: string, files: Files, exitCode: int, output: string)
    requires p1 in files && p2 in files
    ensures CompareText(p1, p2, files, exitCode, output)
      == if exitCode == 1
         then Err(RuntimeError("Difference between " + p1 + " and " + p2
                               + " exited with exit code " + "1" + "\n\nDiff:\n" + output))
         else Ok(())
  {
    assert DigitChar(1) == '1';
    assert IntToString(1) == "1";
  }

  // ---------------------------------------------------------------- json_diff

  /** The comparison `json_diff` makes of two resolved paths. The canonical forms are compared
      with Python's `!=`, under which `true` and `1` are the same value. */
  function CompareJson(p1: string, p2: string, files: Files): (r: Outcome)
    ensures r.Ok? <==> (p1 in files && p2 in files
                        && files[p1].parsed.Some? && files[p2].parsed.Some?
                        && Ordered(files[p1].parsed.value).Some? && Ordered(files[p2].parsed.value).Some?
                        && PyEq(Ordered(files[p1].parsed.value).value, Ordered(files[p2].parsed.value).value))
  {
    if p1 !in files then Err(MissingFile(p1))
    else if p2 !in files then Err(MissingFile(p2))
    else
      match files[p1].parsed
      case None => Err(DecodeError(p1))
      case Some(j1) =>
        match files[p2].parsed
        case None => Err(DecodeError(p2))
        case Some(j2) =>
          match Ordered(j1)
          case None => Err(SortError)
          case Some(c1) =>
            match Ordered(j2)
            case None => Err(SortError)
            case Some(c2) =>
              if !PyEq(c1, c2) then Err(RuntimeError("JSON files " + p1 + " and " + p2 + " are different"))
              else Ok(())
  }

  /** `json_diff(filename1, filename2)`. */
  function JsonDiff(w: Wrapper, filename1: string, filename2: string, files: Files): (r: Outcome)
    ensures var (p1, p2) := ResolvePair(w, filename1, filename2);
      r.Ok? <==> (p1 in files && p2 in files
                  && files[p1].parsed.Some? && files[p2].parsed.Some?
                  && Ordered(files[p1].parsed.value).Some? && Ordered(files[p2].parsed.value).Some?
                  && PyEq(Ordered(files[p1].parsed.value).value, Ordered(files[p2].parsed.value).value))
  {
    var (p1, p2) := ResolvePair(w, filename1, filename2);
    CompareJson(p1, p2, files)
  }

  /** Which error is raised when something is wrong: existence of the first file, then of the
      second, then decoding of the first, then of the second; then a canonical form that cannot be
      sorted, and last the difference, naming both paths. */
  lemma CompareJsonErrorOrder(p1: string, p2: string, files: Files)
    ensures p1 !in files ==> CompareJson(p1, p2, files) == Err(MissingFile(p1))
    ensures p1 in files && p2 !in files ==> CompareJson(p1, p2, files) == Err(MissingFile(p2))
    ensures p1 in files && p2 in files && files[p1].parsed.None? ==> CompareJson(p1, p2, files) == Err(DecodeError(p1))
    ensures p1 in files && p2 in files && files[p1].parsed.Some? && files[p2].parsed.None?
            ==> CompareJson(p1, p2, files) == Err(DecodeError(p2))
    ensures p1 in files && p2 in files && files[p1].parsed.Some? && files[p2].parsed.Some?
            && (Ordered(files[p1].parsed.value).None? || Ordered(files[p2].parsed.value).None?)
            ==> CompareJson(p1, p2, files) == Err(SortError)
    ensures p1 in files && p2 in files && files[p1].parsed.Some? && files[p2].parsed.Some?
            && Ordered(files[p1].parsed.value).Some? && Ordered(files[p2].parsed.value).Some?
            && !PyEq(Ordered(files[p1].parsed.value).value, Ordered(files[p2].parsed.value).value)
            ==> CompareJson(p1, p2, files) == Err(RuntimeError("JSON files " + p1 + " and " + p2 + " are different"))
  {
  }

  /** Accepting two files does not depend on which one is the expected one. */
  lemma CompareJsonSymmetric(p1: string, p2: string, files: Files)
    ensures CompareJson(p1, p2, files).Ok? <==> CompareJson(p2, p1, files).Ok?
  {
    if p1 in files && p2 in files && files[p1].parsed.Some? && files[p2].parsed.Some?
       && Ordered(files[p1].parsed.value).Some? && Ordered(files[p2].parsed.value).Some? {
      var c1, c2 := Ordered(files[p1].parsed.value).value, Ordered(files[p2].parsed.value).value;
      PyEqEquivalence(c1, c2, c1);
      PyEqEquivalence(c2, c1, c2);
    }
  }

  /** A file whose arrays and objects are reordered, at any depth, is accepted. */
  lemma CompareJsonAcceptsReordering(p1: string, p2: string, files: Files, j: Json, r: Reorder)
    requires p1 in files && p2 in files
    requires files[p1].parsed == Some(j) && files[p2].parsed == Some(Apply(r, j))
    requires Ordered(j).Some?
    ensures CompareJson(p1, p2, files) == Ok(())
  {
    ReorderInvariant(r, j);
    PyEqEquivalence(Ordered(j).value, Ordered(j).value, Ordered(j).value);
  }

  /** `{}` against `[]` is accepted. */
  lemma CompareJsonEmptyContainers(p1: string, p2: string, files: Files)
    requires p1 in files && p2 in files
    requires files[p1].parsed == Some(JObj([])) && files[p2].parsed == Some(JArr([]))
    ensures CompareJson(p1, p2, files) == Ok(())
  {
    EmptyContainersCollide();
  }

  /** `{"a": 1}` against `{"a": 2}` is reported as different. */
  lemma CompareJsonDifferentValues(p1: string, p2: string, files: Files)
    requires p1 in files && p2 in files
    requires files[p1].parsed == Some(JObj([Member("a", JNum(1))]))
    requires files[p2].parsed == Some(JObj([Member("a", JNum(2))]))
    ensures CompareJson(p1, p2, files) == Err(RuntimeError("JSON files " + p1 + " and " + p2 + " are different"))
  {
    SingletonOrdered(Member("a", JNum(1)));
    SingletonOrdered(Member("a", JNum(2)));
  }

  /** Python's `true == 1` holds inside the files too: `{"x": true}` against `{"x": 1}`, and
      `false` against `0`, are accepted. */
  lemma CompareJsonBoolAsNumber(p1: string, p2: string, files: Files, b: bool)
    requires p1 in files && p2 in files
    requires files[p1].parsed == Some(JObj([Member("x", JBool(b))]))
    requires files[p2].parsed == Some(JObj([Member("x", JNum(BoolNumber(b)))]))
    ensures CompareJson(p1, p2, files) == Ok(())
  {
    SingletonOrdered(Member("x", JBool(b)));
    SingletonOrdered(Member("x", JNum(BoolNumber(b))));
    PyEqBoolNumber(b, "x");
  }

  /** A one-member object canonicalises to the list holding its one tuple. */
  lemma SingletonOrdered(m: Member)
    requires Ordered(m.value).Some?
    ensures Ordered(JObj([m])) == Some(CList([CPair(m.key, Ordered(m.value).value)]))
  {
    var c := CPair(m.key, Ordered(m.value).value);
    assert OrderedMembers([m]) == [Some(c)];
    assert AllSome([Some(c)]).value == [c];
    SortSingleton(c);
  }

  // ---------------------------------------------------------------- empty_file, empty_json_diff

  /** `empty_file(filename)`: the file must exist, and then be empty. */
  function EmptyFile(w: Wrapper, filename: string, files: Files): (r: Outcome)
    ensures var p := Join(w.testcasePath, WithDefaultDir("data", filename));
      r.Ok? <==> p in files && files[p].size == 0
  {
    var p := Join(w.testcasePath, WithDefaultDir("data", filename));
    if p !in files then Err(RuntimeError("File " + p + " should exist"))
    else if files[p].size != 0 then Err(RuntimeError("File " + p + " should be empty"))
    else Ok(())
  }

  /** A missing file is reported as missing, never as non-empty; an existing file that is not
      empty is reported as such. */
  lemma EmptyFileErrors(w: Wrapper, filename: string, files: Files)
    ensures var p := Join(w.testcasePath, WithDefaultDir("data", filename));
      p !in files ==> EmptyFile(w, filename, files) == Err(RuntimeError("File " + p + " should exist"))
    ensures var p := Join(w.testcasePath, WithDefaultDir("data", filename));
      p in files && files[p].size != 0 ==> EmptyFile(w, filename, files) == Err(RuntimeError("File " + p + " should be empty"))
  {
  }

  const EmptyJsonFile: string := "test_suite/" + "integrationTests/data/empty_json_diff_file.json"

  /** `empty_json_diff(filename)`: `json_diff` of the resolved name against the installation's
      empty-JSON file. `installDir` is the value of `SUBMITTY_INSTALL_DIR`. Both names handed to
      `json_diff` have a directory part, so both are joined onto the testcase directory once
      more. */
  function EmptyJsonDiff(w: Wrapper, filename: string, installDir: string, files: Files): (r: Outcome)
    ensures var p := Join(w.testcasePath, WithDefaultDir("data", filename));
      r == CompareJson(Join(w.testcasePath, p), Join(w.testcasePath, Join(installDir, EmptyJsonFile)), files)
  {
    var filename1 := Join(w.testcasePath, WithDefaultDir("data", filename));
    var filename2 := Join(installDir, EmptyJsonFile);
    assert '/' in filename1 by { JoinKeepsSlash(w.testcasePath, WithDefaultDir("data", filename)); }
    assert '/' in filename2 by {
      assert EmptyJsonFile[10] == '/';
      JoinKeepsSlash(installDir, EmptyJsonFile);
    }
    assert ResolvePair(w, filename1, filename2)
        == (Join(w.testcasePath, filename1), Join(w.testcasePath, filename2));
    JsonDiff(w, filename1, filename2, files)
  }

  /** With an absolute testcase directory and installation directory, the actual file is
      `<testcase>/data/<name>` and the expected one the installation's empty-JSON file. */
  lemma EmptyJsonDiffAbsolute(w: Wrapper, name: string, installDir: string, files: Files)
    requires IsAbsolute(w.testcasePath) && w.testcasePath[|w.testcasePath| - 1] != '/'
    requires IsAbsolute(installDir) && installDir[|installDir| - 1] != '/'
    requires '/' !in name
    ensures EmptyJsonDiff(w, name, installDir, files)
         == CompareJson(w.testcasePath + "/data/" + name, installDir + "/" + EmptyJsonFile, files)
  {
    var base := w.testcasePath;
    assert WithDefaultDir("data", name) == "data/" + name;
    assert Join(base, "data/" + name) == base + "/data/" + name;
    assert IsAbsolute(base + "/data/" + name) by { assert (base + "/data/" + name)[0] == base[0]; }
    EmptyJsonFilePath(base, installDir);
  }

  /** The expected file: the install directory's copy, whatever the testcase directory. */
  lemma EmptyJsonFilePath(base: string, installDir: string)
    requires IsAbsolute(installDir) && installDir[|installDir| - 1] != '/'
    ensures Join(base, Join(installDir, EmptyJsonFile)) == installDir + "/" + EmptyJsonFile
  {
    assert !IsAbsolute(EmptyJsonFile) by { assert EmptyJsonFile[0] == 't'; }
    JoinCases(installDir, EmptyJsonFile);
    var q := installDir + "/" + EmptyJsonFile;
    assert IsAbsolute(q) by { assert q[0] == installDir[0]; }
    JoinCases(base, q);
  }

  /** A relative testcase directory `base` ends up twice in front of `data/<name>`. */
  lemma DoubledDataPath(base: string, name: string)
    requires base != "" && !IsAbsolute(base) && base[|base| - 1] != '/'
    requires '/' !in name
    ensures Join(base, Join(base, WithDefaultDir("data", name))) == base + "/" + base + "/data/" + name
  {
    var d := "data/" + name;
    assert WithDefaultDir("data", name) == d;
    assert !IsAbsolute(d) by { assert d[0] == 'd'; }
    JoinCases(base, d);
    var p := base + "/" + d;
    assert !IsAbsolute(p) by { assert p[0] == base[0]; }
    JoinCases(base, p);
    assert base + "/" + p == base + "/" + base + "/data/" + name;
  }

  /** With a relative testcase directory the directory is prefixed twice: for `t` and `x.json`
      the actual file looked up is `t/t/data/x.json`. */
  lemma EmptyJsonDiffRelativeBase(w: Wrapper, name: string, installDir: string, files: Files)
    requires w.testcasePath != "" && !IsAbsolute(w.testcasePath) && w.testcasePath[|w.testcasePath| - 1] != '/'
    requires IsAbsolute(installDir) && installDir[|installDir| - 1] != '/'
    requires '/' !in name
    ensures var base := w.testcasePath;
      EmptyJsonDiff(w, name, installDir, files)
      == CompareJson(base + "/" + base + "/data/" + name, installDir + "/" + EmptyJsonFile, files)
  {
    DoubledDataPath(w.testcasePath, name);
    EmptyJsonFilePath(w.testcasePath, installDir);
  }
}
