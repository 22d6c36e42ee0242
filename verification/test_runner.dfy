/** Running a generated project's tests and summarising what failed.  The
    processes themselves are not run: each is given by its outcome. */
module TestRunner {
  import opened Options
  import opened Text

  /** What starting an external process came to: the executable was missing,
      it exited, or some other exception (a timeout, say) was raised. */
  datatype Proc = NotFound | Exited(code: int, stdout: string, stderr: string) | Crashed(message: string)

  /** Running one file found by the directory walk. */
  datatype FileOutcome = Finished(code: int, stderr: string) | Failed(message: string)
  datatype FileRun = FileRun(name: string, outcome: FileOutcome)

  /** The outcomes of every process a test run may start, and the files of
      the project directory in walk order. */
  datatype Toolchain = Toolchain(pytest: Proc, unittest: Proc, npm: Proc, files: seq<FileRun>)

  const NotImplemented := "Syntax check not implemented for this language"
  const NoSpecificErrors := "No specific errors found in test output"

  // ---------------------------------------------------------------------
  // Running files one by one.

  predicate IsPythonFile(name: string) {
    EndsWith(name, ".py") && name != "__init__.py"
  }

  predicate IsNodeFile(name: string) {
    EndsWith(name, ".js") && !EndsWith(name, ".test.js")
  }

  predicate RanClean(f: FileRun) {
    f.outcome.Finished? && f.outcome.code == 0
  }

  /** The files a pass runs, in walk order. */
  function Selected(files: seq<FileRun>, python: bool): (r: seq<FileRun>)
    ensures |r| <= |files|
    ensures forall i :: 0 <= i < |r| ==> r[i] in files
    ensures forall i :: 0 <= i < |r| ==> if python then IsPythonFile(r[i].name) else IsNodeFile(r[i].name)
    decreases |files|
  {
    if |files| == 0 then []
    else
      var keep := if python then IsPythonFile(files[0].name) else IsNodeFile(files[0].name);
      (if keep then [files[0]] else []) + Selected(files[1..], python)
  }

  /** The line a Python file contributes. */
  function PythonLine(f: FileRun): string {
    match f.outcome
    case Finished(code, stderr) =>
      if code != 0 then "Error in " + f.name + ": " + stderr else f.name + ": OK"
    case Failed(message) => "Error running " + f.name + ": " + message
  }

  /** The line a Node file contributes, when it contributes one. */
  function NodeLines(f: FileRun): seq<string> {
    match f.outcome
    case Finished(code, stderr) => if code != 0 then ["Error in " + f.name + ": " + stderr] else []
    case Failed(message) => ["Error running " + f.name + ": " + message]
  }

  function AllClean(fs: seq<FileRun>): (r: bool)
    ensures r <==> forall i :: 0 <= i < |fs| ==> RanClean(fs[i])
    decreases |fs|
  {
    if |fs| == 0 then true else RanClean(fs[0]) && AllClean(fs[1..])
  }

  /** `_run_python_files`: one output line per Python file other than
      `__init__.py`, and success exactly when every such file exited with 0. */
  function RunPythonFiles(files: seq<FileRun>): (r: (bool, string))
    ensures var fs := Selected(files, true);
      && (r.0 <==> forall i :: 0 <= i < |fs| ==> RanClean(fs[i]))
      && r.1 == Join(PythonLines(fs))
  {
    var fs := Selected(files, true);
    var ok: bool := forall i :: 0 <= i < |fs| ==> RanClean(fs[i]);
    assert ok == AllClean(fs);
    (ok, Join(PythonLines(fs)))
  }

  /** One line per file, in order. */
  function PythonLines(fs: seq<FileRun>): (r: seq<string>)
    ensures |r| == |fs|
    ensures forall i :: 0 <= i < |fs| ==> r[i] == PythonLine(fs[i])
  {
    seq(|fs|, i requires 0 <= i < |fs| => PythonLine(fs[i]))
  }

  /** `_run_node_files`: a line only for each file that failed. */
  function RunNodeFiles(files: seq<FileRun>): (r: (bool, string))
    ensures var fs := Selected(files, false);
      && (r.0 <==> forall i :: 0 <= i < |fs| ==> RanClean(fs[i]))
      && r.1 == Join(FailureLines(fs))
  {
    var fs := Selected(files, false);
    var ok: bool := forall i :: 0 <= i < |fs| ==> RanClean(fs[i]);
    assert ok == AllClean(fs);
    (ok, Join(FailureLines(fs)))
  }

  function FailureLines(fs: seq<FileRun>): (r: seq<string>)
    ensures |r| <= |fs|
    ensures |r| == 0 <==> forall i :: 0 <= i < |fs| ==> RanClean(fs[i])
    decreases |fs|
  {
    if |fs| == 0 then [] else NodeLines(fs[0]) + FailureLines(fs[1..])
  }

  // ---------------------------------------------------------------------
  // Dispatch.

  /** `_run_python_tests`: pytest; when it is missing, unittest; when that
      cannot be started either, the files one by one.  Any other failure to
      start pytest propagates. */
  function PythonTests(tc: Toolchain): Result<(bool, string)> {
    match tc.pytest
    case Exited(code, out, err) => Ok(if code == 0 then (true, out) else (false, out + err))
    case Crashed(message) => Raise(message)
    case NotFound =>
      match tc.unittest
      case Exited(code, out, err) => Ok((code == 0, out + err))
      case _ => Ok(RunPythonFiles(tc.files))
  }

  /** `_run_node_tests`: `npm test`, or the files one by one when npm is missing. */
  function NodeTests(tc: Toolchain): Result<(bool, string)> {
    match tc.npm
    case Exited(code, out, err) => Ok((code == 0, out + err))
    case Crashed(message) => Raise(message)
    case NotFound => Ok(RunNodeFiles(tc.files))
  }

  const NodeLanguages: seq<string> := ["javascript", "js", "typescript", "ts"]

  /** `run_tests`: by lower-cased language name. */
  function RunTests(language: string, tc: Toolchain): (r: Result<(bool, string)>)
    ensures Lower(language) != "python" && Lower(language) !in NodeLanguages ==> r == Ok((true, NotImplemented))
    ensures r.Raise? ==> tc.pytest.Crashed? || tc.npm.Crashed?
  {
    var l := Lower(language);
    if l == "python" then PythonTests(tc)
    else if l in NodeLanguages then NodeTests(tc)
    else Ok((true, NotImplemented))
  }

  /** A language that is neither Python nor a Node language never fails its
      check, whatever the toolchain does. */
  lemma UnsupportedPasses(language: string, tc: Toolchain, tc': Toolchain)
    requires Lower(language) != "python" && Lower(language) !in NodeLanguages
    ensures RunTests(language, tc) == RunTests(language, tc') == Ok((true, NotImplemented))
  {
  }

  /** Python runs never touch npm, and Node runs never touch pytest. */
  lemma DispatchIndependent(language: string, tc: Toolchain)
    ensures Lower(language) == "python" ==> RunTests(language, tc) == RunTests(language, tc.(npm := NotFound))
    ensures Lower(language) in NodeLanguages ==>
      RunTests(language, tc) == RunTests(language, tc.(pytest := NotFound, unittest := NotFound))
  {
    if Lower(language) in NodeLanguages {
      assert Lower(language) != "python";
    }
  }

  // ---------------------------------------------------------------------
  // Summarising a failed run.

  const ErrorKeywords: seq<string> := ["error", "fail", "exception", "traceback", "syntax error"]

  predicate IsErrorLine(line: string) {
    exists n :: 0 <= n < |ErrorKeywords| && Contains(Lower(line), ErrorKeywords[n])
  }

  /** The error lines, in order. */
  function ErrorLines(lines: seq<string>): (r: seq<string>)
    ensures |r| <= |lines|
    ensures forall i :: 0 <= i < |r| ==> IsErrorLine(r[i]) && r[i] in lines
    decreases |lines|
  {
    if |lines| == 0 then []
    else (if IsErrorLine(lines[0]) then [lines[0]] else []) + ErrorLines(lines[1..])
  }

  /** `parse_test_errors`: nothing for no output; otherwise the first ten
      error lines, or a fixed message when there are none. */
  function ParseTestErrors(output: string): (r: string)
    ensures |output| == 0 <==> r == ""
  {
    if |output| == 0 then ""
    else
      var errors := ErrorLines(Split(output));
      if |errors| == 0 then NoSpecificErrors
      else
        NonEmptyJoin(Keep(errors));
        Join(Keep(errors))
  }

  /** At most the first ten. */
  function Keep(errors: seq<string>): (r: seq<string>)
    ensures |r| <= 10 && |r| <= |errors| && r == errors[..|r|]
    ensures |errors| <= 10 ==> r == errors
    ensures |errors| > 10 ==> |r| == 10
  {
    if |errors| <= 10 then errors else errors[..10]
  }

  /** Error lines are never empty, so neither is their join. */
  lemma NonEmptyJoin(xs: seq<string>)
    requires |xs| > 0 && forall i :: 0 <= i < |xs| ==> IsErrorLine(xs[i])
    ensures |Join(xs)| > 0
  {
    var n :| 0 <= n < |ErrorKeywords| && Contains(Lower(xs[0]), ErrorKeywords[n]);
    assert |xs[0]| > 0;
    if |xs| > 1 {
      assert Join(xs) == xs[0] + "\n" + Join(xs[1..]);
    }
  }

  /** Every line of the summary is an error line of the output, at most ten
      of them, the first ones in order. */
  lemma SummaryLines(output: string)
    requires |output| > 0 && |ErrorLines(Split(output))| > 0
    ensures var errors := ErrorLines(Split(output));
      && Split(ParseTestErrors(output)) == errors[..|Keep(errors)|]
      && |Split(ParseTestErrors(output))| == if |errors| < 10 then |errors| else 10
  {
    var errors := ErrorLines(Split(output));
    var kept := Keep(errors);
    SplitLines(output);
    ErrorLinesNoNewline(Split(output));
    SplitJoinLines(kept);
  }

  lemma ErrorLinesNoNewline(lines: seq<string>)
    requires forall i :: 0 <= i < |lines| ==> '\n' !in lines[i]
    ensures forall i :: 0 <= i < |ErrorLines(lines)| ==> '\n' !in ErrorLines(lines)[i]
  {
  }

  /** A list of error lines filters to itself. */
  lemma {:induction false} ErrorLinesKeepAll(lines: seq<string>)
    requires forall i :: 0 <= i < |lines| ==> IsErrorLine(lines[i])
    ensures ErrorLines(lines) == lines
    decreases |lines|
  {
    if |lines| > 0 {
      ErrorLinesKeepAll(lines[1..]);
      assert [lines[0]] + lines[1..] == lines;
    }
  }

  /** The fixed message is itself an error line. */
  lemma NoSpecificErrorsIsError()
    ensures IsErrorLine(NoSpecificErrors)
    ensures Contains(Lower(NoSpecificErrors), "error")
    ensures '\n' !in NoSpecificErrors
  {
    var a, b, c := "No specific ", "error", "s found in test output";
    NoSpecificPieces();
    assert Lower(NoSpecificErrors) == Lower(a) + b + Lower(c) by {
      LowerAppend(a + b, c);
      LowerAppend(a, b);
      assert Lower(b) == b;
    }
    OccursMiddle(Lower(a), b, Lower(c));
    assert OccursAt(Lower(NoSpecificErrors), ErrorKeywords[0], |a|);
    NoNewlinePieces(a, b, c);
  }

  /** The message around its keyword. */
  lemma NoSpecificPieces()
    ensures NoSpecificErrors == "No specific " + "error" + "s found in test output"
  {
  }

  lemma OccursMiddle(x: string, y: string, z: string)
    ensures OccursAt(x + y + z, y, |x|)
  {
    assert (x + y + z)[|x|..|x| + |y|] == y;
  }

  lemma NoNewlinePieces(a: string, b: string, c: string)
    requires '\n' !in a && '\n' !in b && '\n' !in c
    ensures '\n' !in a + b + c
  {
  }

  /** Summarising a summary changes nothing. */
  lemma ParseIdempotent(output: string)
    ensures ParseTestErrors(ParseTestErrors(output)) == ParseTestErrors(output)
  {
    if |output| > 0 {
      var errors := ErrorLines(Split(output));
      if |errors| == 0 {
        NoSpecificErrorsIsError();
        SplitWithoutNewline(NoSpecificErrors);
        assert ErrorLines([NoSpecificErrors]) == [NoSpecificErrors];
      } else {
        var kept := Keep(errors);
        SummaryLines(output);
        ErrorLinesKeepAll(kept);
      }
    }
  }
}
