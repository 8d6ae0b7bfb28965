/** `run_tests` and `run_all`: run every named module's prebuild, build and testcases, report
    each failure with the line of the test module it came from, and summarise. */
module Runner {
  import opened Wrappers
  import opened Text
  import opened PosixPath
  import opened Escape
  import opened Logging
  import opened TestcaseWrapper
  import opened Registration

  // ---------------------------------------------------------------- the line of a failure

  /** A frame of a test module: its file is some package's `__init__.py`. */
  predicate IsInitFrame(f: Frame)
  {
    Basename(f.file) == "__init__.py"
  }

  /** The line of the first (outermost) frame of `trace` that satisfies `p`. */
  function FirstLine(p: Frame -> bool, trace: seq<Frame>): Option<nat>
  {
    if |trace| == 0 then None
    else if p(trace[0]) then Some(trace[0].line)
    else FirstLine(p, trace[1..])
  }

  lemma {:induction false} FirstLineNoneIff(p: Frame -> bool, trace: seq<Frame>)
    ensures FirstLine(p, trace).None? <==> forall i :: 0 <= i < |trace| ==> !p(trace[i])
  {
    if |trace| > 0 && !p(trace[0]) {
      FirstLineNoneIff(p, trace[1..]);
      assert forall i :: 1 <= i < |trace| ==> trace[i] == trace[1..][i - 1];
    }
  }

  /** The position of the frame whose line is found: a matching frame with none before it. */
  lemma {:induction false} FirstMatch(p: Frame -> bool, trace: seq<Frame>) returns (i: nat)
    requires FirstLine(p, trace).Some?
    ensures i < |trace| && p(trace[i]) && trace[i].line == FirstLine(p, trace).value
    ensures forall j :: 0 <= j < i ==> !p(trace[j])
  {
    if p(trace[0]) {
      i := 0;
    } else {
      var rest := trace[1..];
      var k := FirstMatch(p, rest);
      i := k + 1;
      assert trace[i] == rest[k];
      forall j | 0 <= j < i ensures !p(trace[j]) {
        if j > 0 { assert trace[j] == rest[j - 1]; }
      }
    }
  }

  /** The line reported for a failure: that of the first (outermost) `__init__.py` frame. */
  function InitLine(trace: seq<Frame>): Option<nat>
  {
    FirstLine(IsInitFrame, trace)
  }

  /** No line is found exactly when no frame is an `__init__.py` frame. */
  lemma InitLineNoneIff(trace: seq<Frame>)
    ensures InitLine(trace).None? <==> forall i :: 0 <= i < |trace| ==> !IsInitFrame(trace[i])
  {
    FirstLineNoneIff(IsInitFrame, trace);
  }

  /** A line found is that of an `__init__.py` frame with no `__init__.py` frame before it. */
  lemma InitLineIsOutermost(trace: seq<Frame>)
    ensures InitLine(trace).Some? ==>
      exists i :: 0 <= i < |trace| && IsInitFrame(trace[i]) && trace[i].line == InitLine(trace).value
                  && forall j :: 0 <= j < i ==> !IsInitFrame(trace[j])
  {
    if InitLine(trace).Some? {
      var i := FirstMatch(IsInitFrame, trace);
    }
  }

  /** The scan of the traceback: from the innermost frame outwards, every `__init__.py` frame
      overwrites the line found so far, so the outermost one is what is left. */
  method FailureLine(trace: seq<Frame>) returns (lineno: Option<nat>)
    ensures lineno == InitLine(trace)
  {
    lineno := None;
    var i := |trace|;
    while i > 0
      invariant 0 <= i <= |trace|
      invariant lineno == InitLine(trace[i..])
    {
      i := i - 1;
      assert trace[i..][1..] == trace[i + 1..];
      if Basename(trace[i].file) == "__init__.py" {
        lineno := Some(trace[i].line);
      }
    }
    assert trace[0..] == trace;
  }

  /** `str(lineno)`. */
  function LineText(lineno: Option<nat>): string
  {
    if lineno.None? then "None" else NatToString(lineno.value)
  }

  // ---------------------------------------------------------------- what one module prints

  /** `with style: print(text)`. */
  function StyledPrint(style: Style, text: string): seq<Chunk>
  {
    [Written(EnterSequence(style)), Printed(Message([text], " ", "\n")), Written(ResetSequence)]
  }

  /** The report `run_tests` prints for a raising testcase: the two arguments of `print` are
      separated by a space after the colon and its own space. */
  function FailureReport(index: nat, lineno: Option<nat>, message: string): string
  {
    Message(["Testcase " + NatToString(index) + " failed on line " + LineText(lineno) + " with exception: ", message], " ", "\n")
  }

  /** What the decorator's wrapper prints before calling the testcase. */
  function StartChunks(tc: Testcase): seq<Chunk>
  {
    [Printed(Message(["* Starting testcase " + tc.modname + "." + tc.funcName + "... "], " ", ""))]
  }

  /** What the decorator's wrapper prints after calling it. */
  function VerdictChunks(tc: Testcase): seq<Chunk>
  {
    if tc.behaviour.Returns? then StyledPrint(Combine(BOLD, GREEN), "PASSED")
    else StyledPrint(Combine(BOLD, RED), "FAILED")
  }

  /** What `run_tests` prints about the `index`-th testcase once it has returned or raised. */
  function ReportChunks(index: nat, tc: Testcase): seq<Chunk>
  {
    match tc.behaviour
    case Returns => []
    case Raises(message, trace) =>
      [Written(EnterSequence(Combine(BOLD, RED))),
       Printed(FailureReport(index, InitLine(trace), message)),
       Written(ResetSequence)]
  }

  /** The output of the `index`-th testcase: the decorator's wrapper announces it and says PASSED
      or FAILED; for a failure `run_tests` then prints its report. */
  function CaseChunks(index: nat, tc: Testcase): seq<Chunk>
  {
    StartChunks(tc) + VerdictChunks(tc) + ReportChunks(index, tc)
  }

  /** The output of a module's testcases, numbered from 1. */
  function CasesChunks(tcs: seq<Testcase>): seq<Chunk>
  {
    if |tcs| == 0 then [] else CasesChunks(tcs[..|tcs| - 1]) + CaseChunks(|tcs|, tcs[|tcs| - 1])
  }

  /** The number of testcases that raise. */
  function Failures(tcs: seq<Testcase>): (n: nat)
    ensures n <= |tcs|
  {
    if |tcs| == 0 then 0
    else Failures(tcs[..|tcs| - 1]) + if tcs[|tcs| - 1].behaviour.Raises? then 1 else 0
  }

  /** The module's tally line, given the count left after the failures. */
  function TallyChunks(passed: int, total: nat): seq<Chunk>
  {
    if passed == total then StyledPrint(Combine(BOLD, GREEN), "All testcases passed")
    else StyledPrint(Combine(BOLD, RED), IntToString(passed) + "/" + NatToString(total) + " testcases passed")
  }

  const NoWrapperMessage: string := "'TestcaseFile' object " + "has no attribute 'wrapper'"

  /** What the prebuild action prints and, if it raises, the exception's message. */
  function PrebuildChunks(p: Prebuild): seq<Chunk>
  {
    match p
    case NoOp => []
    case Hook(m, b) =>
      [Printed(Message(["* Starting prebuild for " + m + "... "], " ", ""))]
      + if b.Returns? then [Printed(Message(["Done"], " ", "\n"))] else []
  }

  /** The message of the exception that ends the module's `try` block, if one does: the prebuild
      action's own, or, after it, the missing `wrapper` attribute of a record no decorator
      touched, or the build's. */
  function SetupError(rec: Record, builds: string -> BuildCodes): Option<string>
  {
    if rec.prebuild.Hook? && rec.prebuild.behaviour.Raises? then Some(rec.prebuild.behaviour.message)
    else if rec.wrapper.None? then Some(NoWrapperMessage)
    else
      match Build(builds(rec.wrapper.value.testcasePath))
      case Ok(_) => None
      case Err(e) => Some(e.message)
  }

  function BeginBanner(key: string): seq<Chunk>
  {
    StyledPrint(BOLD, "--- BEGIN TEST MODULE " + AsciiUpper(key) + " ---")
  }

  function EndBanner(key: string): seq<Chunk>
  {
    StyledPrint(BOLD, "--- END TEST MODULE " + AsciiUpper(key) + " ---")
  }

  /** The `try` block and its handler. */
  function SetupChunks(rec: Record, builds: string -> BuildCodes): seq<Chunk>
  {
    [Printed(Message(["* Starting compilation..."], " ", "\n"))]
    + PrebuildChunks(rec.prebuild)
    + match SetupError(rec, builds)
      case None => [Printed(Message(["* Finished compilation"], " ", "\n"))]
      case Some(e) => [Printed(Message(["Build failed with exception: " + e], " ", "\n"))]
  }

  /** The testcases and the tally. */
  function TestingChunks(tcs: seq<Testcase>): seq<Chunk>
  {
    CasesChunks(tcs) + TallyChunks(|tcs| - Failures(tcs), |tcs|)
  }

  /** Everything one iteration of `run_tests`'s outer loop outputs for module `key`: the
      testcases run only when the setup succeeded. */
  function ModuleChunks(key: string, rec: Record, builds: string -> BuildCodes): seq<Chunk>
  {
    BeginBanner(key) + SetupChunks(rec, builds)
    + (if SetupError(rec, builds).None? then TestingChunks(rec.testcases) else [])
    + EndBanner(key) + [Printed(Message([], " ", "\n"))]
  }

  /** The module counts as passed: its setup succeeded and none of its testcases raised. */
  predicate ModulePassed(rec: Record, builds: string -> BuildCodes)
  {
    SetupError(rec, builds).None? && Failures(rec.testcases) == 0
  }

  // ---------------------------------------------------------------- what the suite prints

  function ModulesChunks(t: Table, names: seq<string>, builds: string -> BuildCodes): seq<Chunk>
  {
    if |names| == 0 then []
    else ModulesChunks(t, names[..|names| - 1], builds) + ModuleChunks(names[|names| - 1], Lookup(t, names[|names| - 1]), builds)
  }

  function PassedModules(t: Table, names: seq<string>, builds: string -> BuildCodes): (n: nat)
    ensures n <= |names|
  {
    if |names| == 0 then 0
    else PassedModules(t, names[..|names| - 1], builds) + if ModulePassed(Lookup(t, names[|names| - 1]), builds) then 1 else 0
  }

  function SummaryChunks(passed: nat, total: nat): seq<Chunk>
  {
    if passed == total then StyledPrint(Combine(BOLD, GREEN), "All modules passed")
    else StyledPrint(Combine(BOLD, RED), NatToString(passed) + "/" + NatToString(total) + " modules passed")
  }

  /** Everything `run_tests(names)` outputs, given the table it starts from. */
  function SuiteChunks(t: Table, names: seq<string>, builds: string -> BuildCodes): seq<Chunk>
  {
    ModulesChunks(t, names, builds) + SummaryChunks(PassedModules(t, names, builds), |names|)
  }

  /** The status the process ends with: `sys.exit(1)` unless every module passed. */
  function ExitStatus(t: Table, names: seq<string>, builds: string -> BuildCodes): int
  {
    if PassedModules(t, names, builds) == |names| then 0 else 1
  }

  /** One more name: its module's output and verdict are added to those of the names before. */
  lemma ModulesStep(t: Table, names: seq<string>, i: nat, builds: string -> BuildCodes)
    requires i < |names|
    ensures ModulesChunks(t, names[..i + 1], builds)
         == ModulesChunks(t, names[..i], builds) + ModuleChunks(names[i], Lookup(t, names[i]), builds)
    ensures PassedModules(t, names[..i + 1], builds)
         == PassedModules(t, names[..i], builds) + if ModulePassed(Lookup(t, names[i]), builds) then 1 else 0
  {
    assert names[..i + 1][..i] == names[..i];
  }

  lemma TouchAllStep(t: Table, names: seq<string>, i: nat)
    requires i < |names|
    ensures TouchAll(t, names[..i + 1]) == Touch(TouchAll(t, names[..i]), names[i])
  {
    assert names[..i + 1][..i] == names[..i];
  }

  /** The table after `TO_RUN[key]` for each of `names` in turn. */
  function TouchAll(t: Table, names: seq<string>): Table
  {
    if |names| == 0 then t else Touch(TouchAll(t, names[..|names| - 1]), names[|names| - 1])
  }

  lemma {:induction false} TouchAllLookup(t: Table, names: seq<string>, k: string)
    ensures Lookup(TouchAll(t, names), k) == Lookup(t, k)
  {
    if |names| > 0 {
      TouchAllLookup(t, names[..|names| - 1], k);
    }
  }

  // ---------------------------------------------------------------- what the runner promises

  /** No testcase raises exactly when the failure count is zero. */
  lemma {:induction false} NoFailuresIff(tcs: seq<Testcase>)
    ensures Failures(tcs) == 0 <==> forall i :: 0 <= i < |tcs| ==> tcs[i].behaviour.Returns?
  {
    if |tcs| > 0 {
      NoFailuresIff(tcs[..|tcs| - 1]);
      assert forall i :: 0 <= i < |tcs| - 1 ==> tcs[..|tcs| - 1][i] == tcs[i];
    }
  }

  /** The green and the red style write different sequences. */
  lemma GreenIsNotRed()
    ensures EnterSequence(Combine(BOLD, GREEN)) != EnterSequence(Combine(BOLD, RED))
  {
    assert Combine(BOLD, GREEN).codes == ["1", "32"] && Combine(BOLD, RED).codes == ["1", "31"];
    assert JoinWith(";", ["1", "32"]) == "1;32" && JoinWith(";", ["1", "31"]) == "1;31";
    assert EnterSequence(Combine(BOLD, GREEN))[5] == '2';
    assert EnterSequence(Combine(BOLD, RED))[5] == '1';
  }

  /** The tally is written in green, saying all testcases passed, exactly when none raised. */
  lemma TallyGreenIff(tcs: seq<Testcase>)
    ensures TallyChunks(|tcs| - Failures(tcs), |tcs|)[0] == Written(EnterSequence(Combine(BOLD, GREEN)))
        <==> forall i :: 0 <= i < |tcs| ==> tcs[i].behaviour.Returns?
  {
    NoFailuresIff(tcs);
    var tally := TallyChunks(|tcs| - Failures(tcs), |tcs|);
    if Failures(tcs) > 0 {
      assert tally[0] == Written(EnterSequence(Combine(BOLD, RED)));
      GreenIsNotRed();
    }
  }

  /** Otherwise the tally, in red, counts the testcases that returned. */
  lemma TallyCountsReturned(tcs: seq<Testcase>)
    requires Failures(tcs) > 0
    ensures TallyChunks(|tcs| - Failures(tcs), |tcs|)
         == StyledPrint(Combine(BOLD, RED), NatToString(|tcs| - Failures(tcs)) + "/" + NatToString(|tcs|) + " testcases passed")
  {
    assert IntToString(|tcs| - Failures(tcs)) == NatToString(|tcs| - Failures(tcs));
  }

  /** A module passes exactly when its setup succeeded and none of its testcases raised. */
  lemma ModulePassedIff(rec: Record, builds: string -> BuildCodes)
    ensures ModulePassed(rec, builds)
        <==> SetupError(rec, builds).None? && forall i :: 0 <= i < |rec.testcases| ==> rec.testcases[i].behaviour.Returns?
  {
    NoFailuresIff(rec.testcases);
  }

  /** When the prebuild action or the build fails, no testcase is run: the module prints the same
      whatever its testcases are, and it does not pass. */
  lemma SetupFailureSkipsTestcases(key: string, rec: Record, tcs: seq<Testcase>, builds: string -> BuildCodes)
    requires SetupError(rec, builds).Some?
    ensures ModuleChunks(key, rec, builds) == ModuleChunks(key, rec.(testcases := tcs), builds)
    ensures !ModulePassed(rec, builds)
  {
    assert SetupError(rec.(testcases := tcs), builds) == SetupError(rec, builds);
  }

  /** A prebuild action that raises ends the setup before the build: the build's outcome does
      not matter, and the exception's message is what is reported. */
  lemma PrebuildFailureSkipsBuild(rec: Record, builds: string -> BuildCodes, others: string -> BuildCodes)
    requires rec.prebuild.Hook? && rec.prebuild.behaviour.Raises?
    ensures SetupError(rec, builds) == SetupError(rec, others) == Some(rec.prebuild.behaviour.message)
    ensures SetupChunks(rec, builds) == SetupChunks(rec, others)
  {
  }

  /** A name no module registered gets a fresh record with no wrapper: its setup fails on the
      missing attribute, before any build, and the module does not pass. */
  lemma UnregisteredModuleFails(builds: string -> BuildCodes)
    ensures SetupError(Fresh, builds) == Some(NoWrapperMessage)
    ensures SetupChunks(Fresh, builds)
         == [Printed(Message(["* Starting compilation..."], " ", "\n")),
             Printed(Message(["Build failed with exception: " + NoWrapperMessage], " ", "\n"))]
    ensures !ModulePassed(Fresh, builds)
  {
  }

  /** The suite's output splits at any point of the list of names: modules are run one after
      the other, each independently of the others. */
  lemma {:induction false} ModulesChunksAppend(t: Table, a: seq<string>, b: seq<string>, builds: string -> BuildCodes)
    ensures ModulesChunks(t, a + b, builds) == ModulesChunks(t, a, builds) + ModulesChunks(t, b, builds)
    ensures PassedModules(t, a + b, builds) == PassedModules(t, a, builds) + PassedModules(t, b, builds)
  {
    if |b| > 0 {
      var b' := b[..|b| - 1];
      assert (a + b)[..|a + b| - 1] == a + b';
      ModulesChunksAppend(t, a, b', builds);
      Assoc(ModulesChunks(t, a, builds), ModulesChunks(t, b', builds),
            ModuleChunks(b[|b| - 1], Lookup(t, b[|b| - 1]), builds));
    } else {
      assert a + b == a;
    }
  }

  /** Every module counted passes exactly when each named module passed. */
  lemma {:induction false} AllModulesPassedIff(t: Table, names: seq<string>, builds: string -> BuildCodes)
    ensures PassedModules(t, names, builds) == |names|
        <==> forall i :: 0 <= i < |names| ==> ModulePassed(Lookup(t, names[i]), builds)
  {
    if |names| > 0 {
      AllModulesPassedIff(t, names[..|names| - 1], builds);
      assert forall i :: 0 <= i < |names| - 1 ==> names[..|names| - 1][i] == names[i];
    }
  }

  /** `run_tests` exits with status 0 exactly when every named module passed, and then it says
      so in green; otherwise it reports the count in red and exits with status 1. */
  lemma ExitStatusIff(t: Table, names: seq<string>, builds: string -> BuildCodes)
    ensures ExitStatus(t, names, builds) == 0
        <==> forall i :: 0 <= i < |names| ==> ModulePassed(Lookup(t, names[i]), builds)
    ensures ExitStatus(t, names, builds) != 0 ==> ExitStatus(t, names, builds) == 1
    ensures ExitStatus(t, names, builds) == 0
        ==> SummaryChunks(PassedModules(t, names, builds), |names|) == StyledPrint(Combine(BOLD, GREEN), "All modules passed")
    ensures ExitStatus(t, names, builds) != 0
        ==> PassedModules(t, names, builds) < |names|
            && SummaryChunks(PassedModules(t, names, builds), |names|)
               == StyledPrint(Combine(BOLD, RED), NatToString(PassedModules(t, names, builds)) + "/"
                                                  + NatToString(|names|) + " modules passed")
  {
    AllModulesPassedIff(t, names, builds);
  }

  // ---------------------------------------------------------------- the runner itself

  /** `with style: print(*args)`. */
  method PrintStyled(log: Logger, style: Style, text: string, stamp: string)
    modifies log
    ensures log.logFile == NextLogFile(old(log.logFile), stamp)
    ensures log.output == old(log.output) + StyledPrint(style, text)
  {
    log.Write(EnterSequence(style));
    log.Print([text], " ", "\n", stamp);
    log.Write(ResetSequence);
  }

  /** Calling the wrapper the `prebuild` decorator made. */
  method CallPrebuild(log: Logger, p: Prebuild, stamp: string) returns (error: Option<string>)
    requires log.logFile.Some?
    modifies log
    ensures log.logFile == old(log.logFile)
    ensures log.output == old(log.output) + PrebuildChunks(p)
    ensures error == if p.Hook? && p.behaviour.Raises? then Some(p.behaviour.message) else None
  {
    error := None;
    match p
    case NoOp =>
    case Hook(m, b) =>
      log.Print(["* Starting prebuild for " + m + "... "], " ", "", stamp);
      if b.Raises? {
        error := Some(b.message);
      } else {
        log.Print(["Done"], " ", "\n", stamp);
      }
  }

  /** Calling the wrapper the `testcase` decorator made: it announces the testcase, runs it and
      says PASSED or FAILED; the exception, if any, is raised again to the caller. */
  method CallTestcase(log: Logger, tc: Testcase, stamp: string) returns (raised: bool)
    requires log.logFile.Some?
    modifies log
    ensures log.logFile == old(log.logFile)
    ensures raised == tc.behaviour.Raises?
    ensures log.output == old(log.output) + StartChunks(tc) + VerdictChunks(tc)
  {
    log.Print(["* Starting testcase " + tc.modname + "." + tc.funcName + "... "], " ", "", stamp);
    raised := tc.behaviour.Raises?;
    if raised {
      PrintStyled(log, Combine(BOLD, RED), "FAILED", stamp);
    } else {
      PrintStyled(log, Combine(BOLD, GREEN), "PASSED", stamp);
    }
  }

  /** The `except` branch of the inner loop: find the line and report the exception. */
  method ReportFailure(log: Logger, index: nat, tc: Testcase, stamp: string)
    requires log.logFile.Some? && tc.behaviour.Raises?
    modifies log
    ensures log.logFile == old(log.logFile)
    ensures log.output == old(log.output) + ReportChunks(index, tc)
  {
    var lineno := FailureLine(tc.behaviour.trace);
    log.Write(EnterSequence(Combine(BOLD, RED)));
    log.Print(["Testcase " + NatToString(index) + " failed on line " + LineText(lineno) + " with exception: ",
               tc.behaviour.message], " ", "\n", stamp);
    log.Write(ResetSequence);
  }

  /** One iteration of the inner loop: call the testcase and, if it raised, report it. */
  method RunCase(log: Logger, index: nat, tc: Testcase, stamp: string) returns (raised: bool)
    requires log.logFile.Some?
    modifies log
    ensures log.logFile == old(log.logFile)
    ensures raised == tc.behaviour.Raises?
    ensures log.output == old(log.output) + CaseChunks(index, tc)
  {
    raised := CallTestcase(log, tc, stamp);
    ghost var called := log.output;
    if raised {
      ReportFailure(log, index, tc, stamp);
    }
    assert log.output == called + ReportChunks(index, tc);
    Assoc(old(log.output), StartChunks(tc) + VerdictChunks(tc), ReportChunks(index, tc));
  }

  /** One more testcase: its output and its failure are added to those of the ones before. */
  lemma CasesStep(tcs: seq<Testcase>, i: nat)
    requires i < |tcs|
    ensures CasesChunks(tcs[..i + 1]) == CasesChunks(tcs[..i]) + CaseChunks(i + 1, tcs[i])
    ensures Failures(tcs[..i + 1]) == Failures(tcs[..i]) + if tcs[i].behaviour.Raises? then 1 else 0
  {
    assert tcs[..i + 1][..i] == tcs[..i];
  }

  /** The inner loop of `run_tests`: run each testcase, report each failure and count down. */
  method RunCases(log: Logger, tcs: seq<Testcase>, stamp: string) returns (total: int)
    requires log.logFile.Some?
    modifies log
    ensures log.logFile == old(log.logFile)
    ensures total == |tcs| - Failures(tcs)
    ensures log.output == old(log.output) + CasesChunks(tcs)
  {
    total := |tcs|;
    var index := 0;
    while index < |tcs|
      invariant 0 <= index <= |tcs|
      invariant log.logFile == old(log.logFile)
      invariant total == |tcs| - Failures(tcs[..index])
      invariant log.output == old(log.output) + CasesChunks(tcs[..index])
    {
      var raised := RunCase(log, index + 1, tcs[index], stamp);
      if raised {
        total := total - 1;
      }
      CasesStep(tcs, index);
      Assoc(old(log.output), CasesChunks(tcs[..index]), CaseChunks(index + 1, tcs[index]));
      index := index + 1;
    }
    assert tcs[..|tcs|] == tcs;
  }

  lemma Assoc<T>(a: seq<T>, b: seq<T>, c: seq<T>)
    ensures a + (b + c) == a + b + c
  {
  }

  /** The `try` block around the prebuild action and the build, with its handler. */
  method RunSetup(log: Logger, val: Record, builds: string -> BuildCodes, stamp: string)
    returns (error: Option<string>)
    requires log.logFile.Some?
    modifies log
    ensures log.logFile == old(log.logFile)
    ensures error == SetupError(val, builds)
    ensures log.output == old(log.output) + SetupChunks(val, builds)
  {
    log.Print(["* Starting compilation..."], " ", "\n", stamp);
    ghost var started := log.output;
    error := CallPrebuild(log, val.prebuild, stamp);
    if error.None? {
      match val.wrapper
      case None =>
        error := Some(NoWrapperMessage);
      case Some(w) =>
        var built := Build(builds(w.testcasePath));
        if built.Err? {
          error := Some(built.error.message);
        }
    }
    ghost var prebuilt := log.output;
    if error.None? {
      log.Print(["* Finished compilation"], " ", "\n", stamp);
    } else {
      log.Print(["Build failed with exception: " + error.value], " ", "\n", stamp);
    }
    Assoc(old(log.output), [Printed(Message(["* Starting compilation..."], " ", "\n"))], PrebuildChunks(val.prebuild));
    Assoc(old(log.output), [Printed(Message(["* Starting compilation..."], " ", "\n"))] + PrebuildChunks(val.prebuild), log.output[|prebuilt|..]);
    assert log.output == prebuilt + log.output[|prebuilt|..];
  }

  /** The testcases of a module whose setup succeeded, and the tally; `passed` says whether
      none raised. */
  method RunTesting(log: Logger, tcs: seq<Testcase>, stamp: string) returns (passed: bool)
    requires log.logFile.Some?
    modifies log
    ensures log.logFile == old(log.logFile)
    ensures passed == (Failures(tcs) == 0)
    ensures log.output == old(log.output) + TestingChunks(tcs)
  {
    var total := RunCases(log, tcs, stamp);
    ghost var ran := log.output;
    if total == |tcs| {
      PrintStyled(log, Combine(BOLD, GREEN), "All testcases passed", stamp);
      passed := true;
    } else {
      PrintStyled(log, Combine(BOLD, RED), IntToString(total) + "/" + NatToString(|tcs|) + " testcases passed", stamp);
      passed := false;
    }
    Assoc(old(log.output), CasesChunks(tcs), TallyChunks(total, |tcs|));
  }

  /** One iteration of `run_tests`'s outer loop: `modsuccess` says whether the module passed. */
  method RunModule(log: Logger, key: string, val: Record, builds: string -> BuildCodes, stamp: string)
    returns (modsuccess: bool)
    modifies log
    ensures log.logFile == NextLogFile(old(log.logFile), stamp)
    ensures modsuccess == ModulePassed(val, builds)
    ensures log.output == old(log.output) + ModuleChunks(key, val, builds)
  {
    modsuccess := true;
    PrintStyled(log, BOLD, "--- BEGIN TEST MODULE " + AsciiUpper(key) + " ---", stamp);
    ghost var o1 := log.output;
    var cont := true;
    var error := RunSetup(log, val, builds, stamp);
    ghost var o2 := log.output;
    if error.Some? {
      modsuccess := false;
      cont := false;
    }
    if cont {
      modsuccess := RunTesting(log, val.testcases, stamp);
    }
    ghost var o3 := log.output;
    PrintStyled(log, BOLD, "--- END TEST MODULE " + AsciiUpper(key) + " ---", stamp);
    ghost var o4 := log.output;
    log.Print([], " ", "\n", stamp);
    ghost var b1, s1, t1, b2, e1 := BeginBanner(key), SetupChunks(val, builds),
      (if SetupError(val, builds).None? then TestingChunks(val.testcases) else []),
      EndBanner(key), [Printed(Message([], " ", "\n"))];
    ghost var o0 := old(log.output);
    assert o1 == o0 + b1 && o2 == o1 + s1 && o3 == o2 + t1 && o4 == o3 + b2 && log.output == o4 + e1;
    Assoc(o0, b1, s1);
    Assoc(o0, b1 + s1, t1);
    Assoc(o0, b1 + s1 + t1, b2);
    Assoc(o0, b1 + s1 + t1 + b2, e1);
  }

  /** `val = TO_RUN[key]` and the rest of the outer loop's body. */
  method RunNamed(reg: Registry, log: Logger, key: string, builds: string -> BuildCodes, stamp: string)
    returns (modsuccess: bool)
    requires reg.Valid()
    modifies reg, log
    ensures reg.Valid() && reg.Snapshot() == Touch(old(reg.Snapshot()), key)
    ensures log.logFile == NextLogFile(old(log.logFile), stamp)
    ensures modsuccess == ModulePassed(Lookup(old(reg.Snapshot()), key), builds)
    ensures log.output == old(log.output) + ModuleChunks(key, Lookup(old(reg.Snapshot()), key), builds)
  {
    var val := reg.Get(key);
    modsuccess := RunModule(log, key, val, builds, stamp);
  }

  /** The last lines of `run_tests`: the suite's verdict, and the exit status. */
  method Summarise(log: Logger, totalmodules: nat, total: nat, stamp: string) returns (status: int)
    modifies log
    ensures log.logFile == NextLogFile(old(log.logFile), stamp)
    ensures status == if totalmodules == total then 0 else 1
    ensures log.output == old(log.output) + SummaryChunks(totalmodules, total)
  {
    if totalmodules == total {
      PrintStyled(log, Combine(BOLD, GREEN), "All modules passed", stamp);
      status := 0;
    } else {
      PrintStyled(log, Combine(BOLD, RED), NatToString(totalmodules) + "/" + NatToString(total) + " modules passed", stamp);
      status := 1;
    }
  }

  /** One iteration of `run_tests`'s outer loop, stated as the step from the first `i` names
      to the first `i + 1`: `o0` is the output and `t0` the table before the loop. */
  method RunStep(reg: Registry, log: Logger, names: seq<string>, i: nat, builds: string -> BuildCodes,
                 stamp: string, totalmodules: nat, ghost t0: Table, ghost o0: seq<Chunk>)
    returns (next: nat)
    requires i < |names|
    requires reg.Valid() && reg.Snapshot() == TouchAll(t0, names[..i])
    requires log.output == o0 + ModulesChunks(t0, names[..i], builds)
    requires totalmodules == |names| - i + PassedModules(t0, names[..i], builds)
    modifies reg, log
    ensures reg.Valid() && reg.Snapshot() == TouchAll(t0, names[..i + 1])
    ensures log.logFile == NextLogFile(old(log.logFile), stamp)
    ensures log.output == o0 + ModulesChunks(t0, names[..i + 1], builds)
    ensures next == |names| - (i + 1) + PassedModules(t0, names[..i + 1], builds)
  {
    var key := names[i];
    TouchAllLookup(t0, names[..i], key);
    var modsuccess := RunNamed(reg, log, key, builds, stamp);
    next := totalmodules;
    if !modsuccess {
      next := next - 1;
    }
    ModulesStep(t0, names, i, builds);
    TouchAllStep(t0, names, i);
    Assoc(o0, ModulesChunks(t0, names[..i], builds), ModuleChunks(key, Lookup(t0, key), builds));
  }

  /** The outer loop of `run_tests(names)`, from the table `t0`: `totalmodules` counts the
      modules that passed. */
  method RunModules(reg: Registry, log: Logger, names: seq<string>, builds: string -> BuildCodes, stamp: string, ghost t0: Table)
    returns (totalmodules: nat)
    requires reg.Valid() && reg.Snapshot() == t0
    modifies reg, log
    ensures reg.Valid() && reg.Snapshot() == TouchAll(t0, names)
    ensures log.logFile == if |names| == 0 then old(log.logFile) else NextLogFile(old(log.logFile), stamp)
    ensures log.output == old(log.output) + ModulesChunks(t0, names, builds)
    ensures totalmodules == PassedModules(t0, names, builds)
  {
    ghost var o0 := log.output;
    totalmodules := |names|;
    var i := 0;
    while i < |names|
      invariant 0 <= i <= |names|
      invariant reg.Valid() && reg.Snapshot() == TouchAll(t0, names[..i])
      invariant log.logFile == if i == 0 then old(log.logFile) else NextLogFile(old(log.logFile), stamp)
      invariant log.output == o0 + ModulesChunks(t0, names[..i], builds)
      invariant totalmodules == |names| - i + PassedModules(t0, names[..i], builds)
    {
      totalmodules := RunStep(reg, log, names, i, builds, stamp, totalmodules, t0, o0);
      i := i + 1;
    }
    assert names[..|names|] == names;
  }

  /** `run_tests(names)`: `status` is the process's exit status, 1 when `sys.exit(1)` is called.
      Looking up a name no module registered adds a fresh record for it to `TO_RUN`. */
  method RunTests(reg: Registry, log: Logger, names: seq<string>, builds: string -> BuildCodes, stamp: string)
    returns (status: int)
    requires reg.Valid()
    modifies reg, log
    ensures reg.Valid()
    ensures reg.Snapshot() == TouchAll(old(reg.Snapshot()), names)
    ensures log.logFile == NextLogFile(old(log.logFile), stamp)
    ensures log.output == old(log.output) + SuiteChunks(old(reg.Snapshot()), names, builds)
    ensures status == ExitStatus(old(reg.Snapshot()), names, builds)
  {
    ghost var t0 := reg.Snapshot();
    var totalmodules := RunModules(reg, log, names, builds, stamp, t0);
    ghost var ran := log.output;
    status := Summarise(log, totalmodules, |names|, stamp);
    Assoc(old(log.output), ModulesChunks(t0, names, builds), SummaryChunks(PassedModules(t0, names, builds), |names|));
  }

  /** Every key of a well-formed table is already present, so touching them all changes nothing. */
  lemma {:induction false} TouchAllPresent(t: Table, names: seq<string>)
    requires forall i :: 0 <= i < |names| ==> names[i] in t.entries
    ensures TouchAll(t, names) == t
  {
    if |names| > 0 {
      TouchAllPresent(t, names[..|names| - 1]);
    }
  }

  /** `run_all()`: `run_tests` over the keys of `TO_RUN`, which it leaves as it was. */
  method RunAll(reg: Registry, log: Logger, builds: string -> BuildCodes, stamp: string) returns (status: int)
    requires reg.Valid()
    modifies reg, log
    ensures reg.Valid()
    ensures reg.Snapshot() == old(reg.Snapshot())
    ensures log.logFile == NextLogFile(old(log.logFile), stamp)
    ensures log.output == old(log.output) + SuiteChunks(old(reg.Snapshot()), old(reg.order), builds)
    ensures status == ExitStatus(old(reg.Snapshot()), old(reg.order), builds)
  {
    TouchAllPresent(reg.Snapshot(), reg.order);
    status := RunTests(reg, log, reg.order, builds, stamp);
  }
}
