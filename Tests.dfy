/** The test orchestrator: the Python suite and the Polymer (JS) suite,
    combined by a short-circuiting AND with the Python suite first. Each suite
    is an opaque collaborator; only its verdict or return code is modelled. */
module Tests {
  import opened Model

  /** A suite run: its verdict and the suites that were actually started. */
  datatype TestRun = TestRun(passed: bool, events: seq<Event>)

  /** run_python_tests: True exactly when the unittest result was successful. */
  function RunPythonTests(wasSuccessful: bool): (r: TestRun)
    ensures r.passed <==> wasSuccessful
    ensures r.events == [PythonTests]
  {
    if !wasSuccessful then TestRun(false, [PythonTests])
    else TestRun(true, [PythonTests])
  }

  /** The argument vector of `polymer test`, with `-p` appended to keep the
      browsers open. */
  function JsTestCommand(keepOpen: bool): (cmd: seq<string>)
    ensures |cmd| == if keepOpen then 3 else 2
    ensures cmd[..2] == ["polymer", "test"]
    ensures "-p" in cmd <==> keepOpen
    ensures !keepOpen ==> cmd == ["polymer", "test"]
  {
    var testCommand := ["polymer", "test"];
    if keepOpen then testCommand + ["-p"] else testCommand
  }

  /** run_js_tests: a non-zero return code means failure. */
  function RunJsTests(keepOpen: bool, retcode: int): (r: TestRun)
    ensures r.passed <==> retcode == 0
    ensures r.events == [JsTests(JsTestCommand(keepOpen))]
  {
    var ev := [JsTests(JsTestCommand(keepOpen))];
    if retcode != 0 then TestRun(false, ev) else TestRun(true, ev)
  }

  /** run_all_tests: both suites must pass; the JS suite is started only when
      the Python suite passed. */
  function RunAllTests(keepOpen: bool, pythonOk: bool, jsRetcode: int): (r: TestRun)
    ensures r.passed <==> pythonOk && jsRetcode == 0
    ensures !pythonOk ==> r.events == [PythonTests]
    ensures pythonOk ==> r.events == [PythonTests, JsTests(JsTestCommand(keepOpen))]
  {
    var py := RunPythonTests(pythonOk);
    if !py.passed then TestRun(false, py.events)
    else
      var js := RunJsTests(keepOpen, jsRetcode);
      if !js.passed then TestRun(false, py.events + js.events)
      else TestRun(true, py.events + js.events)
  }
}
