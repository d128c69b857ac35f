# grobot deploy script — a Dafny model

`deploy.py` builds, tests and serves the grobot web application. Given six
switches, it:

- optionally rebuilds the Polymer app and its service worker (`--production`);
- optionally prepares a container (`--containerized`). This starts an Xvfb
  display server and swaps `bower_components` in the working directory for a link to the
  shared `/bower_components`;
- runs the Python and the JavaScript test suites, and stops with exit code 1
  on a failure unless `--force` is given;
- undoes the container swap;
- unless `--test-only` is given, optionally starts a simulated module stack
  (`--module_simulation`) and hands control to the development server, in
  development mode unless `--production`. `--keep_open` keeps the test
  browsers open.

The model keeps that orchestration. Every external program, the test runs,
the simulator and the server are opaque steps. Each one contributes only its
return code or verdict, which the model takes in a `World` record, and an
entry in an event trace.

- `Model` holds the vocabulary: flags, collaborator results, the host
  state and the events. The host state is the two bower names, the service
  worker at the project root and under `build/bundled`, and the Xvfb handle.
  The module also defines the rank of each event in the script's text and
  generic lemmas about traces in that order.
- `Tests` models the three test functions. They are pure, with
  short-circuit evaluation.
- `Build` and `Container` give the specification of the build stage and of
  container setup and teardown, as functions from the host state to a
  `Step`. A `Step` is an optional stopping outcome, the new state and the
  events performed.
- `Deploy` composes the stages into `Deploy`, the specification of `main`
  after argument parsing. It also holds the class `Host`, whose fields the
  script changes step by step. `Host.BuildPolymerApp`,
  `Host.SetupContainer`, `Host.TeardownContainer` and `Host.Run` (main) are
  imperative methods. Each is proved to produce exactly what its
  specification function describes: the outcome, the new state and the
  appended trace. `Host.Run` delegates everything from the tests on to
  `Host.Finish`, and the server start to `Host.LaunchDevServer`.
- `Properties` proves what one invocation guarantees:
  - actions happen in source order and at most once;
  - exactly which actions happen, proved in both directions (`DeployEvents`)
    against the reference predicate `Happens`, which reads the script case
    by case;
  - ordering facts;
  - the outcome;
  - the final state of the service worker, the bower names and the Xvfb
    handle.

Where the code and its description differ, the model follows the code:

- The simulator's serial name is read before the base module is added and
  before the simulator starts.
- Teardown removes `bower_components` unconditionally. It therefore
  requires the link to be there.
- The Xvfb liveness check fails only for a process that ended with a
  non-zero code. A process that already ended with 0 passes, and its later
  termination changes nothing.
- After an unforced test failure, `main` exits before the teardown. The
  link stays in place, the user's directory stays under
  `bower_components-user`, and Xvfb is left as it was. `DeployComponents`
  and `DeployXvfb` state this.

A missing `DISPLAY` variable raises an uncaught lookup error in the script.
The model reports it as the outcome
`Uncaught(MissingEnvironmentVariable("DISPLAY"))`.

## Model

| member | source | states |
|---|---|---|
| Tests.RunPythonTests | deploy.py:39-54 | the Python suite passes exactly when the unit-test result is successful; the suite is run once |
| Tests.JsTestCommand | deploy.py:67-70 | the command is `polymer test`, with `-p` present exactly when browsers are kept open, and otherwise exactly `["polymer", "test"]` |
| Tests.RunJsTests | deploy.py:56-75 | the JS suite passes exactly when the return code is 0; the command is the one above |
| Tests.RunAllTests | deploy.py:77-87 | all tests pass exactly when both suites pass; when the Python suite fails, the JS suite is never run |
| Build.BuildPolymerApp | deploy.py:20-37 | a failing `polymer build` exits with 1 before sw-precache runs; a failing sw-precache exits with 1 before the rename; the worker is moved into build/bundled exactly when both succeed; the bower names and Xvfb are untouched |
| Container.XvfbCommand | deploy.py:99-100 | Xvfb is launched on the DISPLAY value with exactly the arguments `-ac -screen 0 1920x1080x24`: access control off and screen 0 at 1920x1080, 24-bit depth |
| Container.PolledStatus | deploy.py:103-104 | the handle is running exactly when the poll reports no return code |
| Container.SetupContainer | deploy.py:89-115 | a missing DISPLAY escapes before anything happens; an Xvfb that died with a non-zero code gives exit 1 with no filesystem change; otherwise bower_components ends as the link and the old entry is moved, not deleted, to bower_components-user; the user directory is moved exactly when bower_components existed |
| Container.Terminate | deploy.py:122 | after termination nothing is running; a process that already ended is unchanged |
| Container.TeardownContainer | deploy.py:117-127 | Xvfb is terminated before the link is removed; bower_components-user is moved back exactly when it exists; afterwards bower_components holds what was under bower_components-user |
| Container.SetupThenTeardownRestores | deploy.py:109-127 | setup then teardown puts a pre-existing bower_components back under its name, not a link, leaves no bower_components-user, leaves neither name when none existed, and leaves no Xvfb running |
| Deploy.ServerSettings | deploy.py:171-175 | the settings hold the `mcu_serial` key exactly under module simulation, mapped to the simulator's serial name, and no other key |
| Deploy.SimulationEvents | deploy.py:173-181 | the simulator is started exactly under module simulation |
| Deploy.BuildStage | deploy.py:146-149 | the build stage stops the process exactly when a production build step fails, and leaves the bower names alone |
| Deploy.SetupStage | deploy.py:151-154 | the setup stage stops the process exactly when a containerized run has no DISPLAY or an Xvfb that died; when it continues under --containerized, bower_components is the link; otherwise the handle is empty |
| Deploy.TeardownStage | deploy.py:164-165 | the teardown stage never stops the process |
| Deploy.BeforeTests | deploy.py:146-154 | control reaches the tests exactly when neither the build nor the setup stopped it; a containerized run then has the link in place |
| Deploy.Host.BuildPolymerApp | deploy.py:20-37 | the imperative build gives the outcome, service-worker state and trace of Build.BuildPolymerApp |
| Deploy.Host.SetupContainer | deploy.py:89-115 | the imperative setup gives the outcome, filesystem, handle and trace of Container.SetupContainer |
| Deploy.Host.TeardownContainer | deploy.py:117-127 | the imperative teardown gives the filesystem, handle and trace of Container.TeardownContainer |
| Deploy.Host.Run | deploy.py:146-183 | main gives the outcome, final host state and trace of the specification Deploy |
| Deploy.Host.Finish | deploy.py:156-183 | the tests, the gate, the teardown and the server give the outcome, state and trace of FromTests |
| Deploy.Host.LaunchDevServer | deploy.py:167-183 | the server start performs the simulator bootstrap under module simulation and launches the server with dev mode and settings as DevServer describes |
| Properties.DeployInSourceOrder | deploy.py:146-183 | every invocation performs its actions in the order of the script's text |
| Properties.DeployOnce | deploy.py:146-183 | no action is performed twice in one invocation |
| Properties.DeployEvents | deploy.py:146-183 | an action occurs exactly when Happens says so. The build needs --production. The setup actions need --containerized. The tests need build and setup to have gone through, and the JS suite also a passing Python suite. The teardown needs --containerized and the gate passed. The simulator needs the gate passed, no --test-only and --module_simulation |
| Properties.DeployOrder | deploy.py:146-183 | an action placed earlier in the script precedes every action placed later |
| Properties.BuildAndSetupBeforeTests | deploy.py:146-157 | the build is over before the container is set up and before the tests, and the link is in place before the tests |
| Properties.TeardownAfterTests | deploy.py:157-165 | the teardown comes after the Python suite and after the JS suite when it ran, and terminates Xvfb before removing the link |
| Properties.SimulatorOrder | deploy.py:173-181 | the serial name is read before the base module is added, and the module before the simulator starts |
| Properties.DeployOutcome | deploy.py:146-183 | the server is launched exactly when the gate is passed without --test-only, in dev mode exactly without --production, with the ServerSettings; a tests-only run past the gate exits with 0; a missing DISPLAY escapes uncaught; every other stop, including an unforced test failure, exits with 1 |
| Properties.DeployServiceWorker | deploy.py:146-149 | a production build that goes through leaves the worker in build/bundled and not at the root; otherwise both are as they were |
| Properties.DeployComponents | deploy.py:151-165 | the bower names are untouched unless the setup went through; restored once the gate is passed; left as link plus user copy after an unforced test failure |
| Properties.DeployXvfb | deploy.py:151-165 | the handle is untouched when the build stops the run, empty when no Xvfb was launched, the polled process when the gate is not passed, and terminated (not running) once the gate is passed |

## Left out

- psoc/grobot_workspace/grobot_module_controller.cydsn/parser.h holds only declarations. Without the parser's implementation there is no behaviour to model.
- Argument parsing is not modelled. The six switches arrive already parsed as `Flags`.
- The model does not run subprocesses, wait for Xvfb or run the test suites. Their return codes and verdicts are inputs in `World`. The build paths, which are derived from the script's own location, are left out, and so are the printed messages. The bower names are relative to the working directory, and the model does not relate the two.
- The server, the simulator and the base module are foreign code. Only their call order and the settings key are modelled.
- The Xvfb process runs concurrently. It is reduced to a handle status: running, ended with a code, or terminated.
- Build.BuildPolymerApp: a successful sw-precache run is assumed to leave `service-worker.js` at the project root and `build/bundled/` is assumed to exist. The rename's failure (an uncaught error when either is missing) is not modelled.
- Container.SetupContainer: requires `bower_components-user` to be absent before setup. Moving into an existing directory of that name is not modelled.
- Container.SetupContainer: the existence test treats a name as existing whenever it is present. The model does not follow symbolic links to decide this.
- Deploy.Host.Run: an uncaught error is reported as the `Uncaught` outcome. The interpreter's traceback and exit status 1 for it are not modelled.
- Deploy.Host.LaunchDevServer: the simulator's own failures and a server that returns are not modelled. A launched server is the end of the run.
