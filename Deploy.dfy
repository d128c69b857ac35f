/** The top-level control flow of the script (main after argument parsing):
    build, container setup, tests, the test gate, container teardown, the
    optional module simulator and the dev server. */
module Deploy {
  import opened Model
  import Tests
  import Build
  import Container

  /** The settings key under which the simulator's serial port is passed. */
  const SerialSetting: string := "mcu_serial"

  /** No step of the build stage ends the process. */
  predicate BuildOk(f: Flags, w: World)
  {
    !f.production || (w.polymerBuild == 0 && w.swPrecache == 0)
  }

  /** No step of the container setup ends the process. */
  predicate SetupOk(f: Flags, w: World)
  {
    !f.containerized || (w.display.Some? && !Container.XvfbDiedEarly(w.xvfbPoll))
  }

  /** Both test suites succeed. */
  predicate TestsPass(w: World)
  {
    w.pythonTestsPass && w.polymerTest == 0
  }

  /** Control reaches the statement after the test gate. */
  predicate PastGate(f: Flags, w: World)
  {
    BuildOk(f, w) && SetupOk(f, w) && (TestsPass(w) || f.force)
  }

  /** The settings handed to the server. */
  function ServerSettings(f: Flags, w: World): (settings: map<string, string>)
    ensures SerialSetting in settings <==> f.moduleSimulation
    ensures f.moduleSimulation ==> settings[SerialSetting] == w.serialName
    ensures settings.Keys <= {SerialSetting}
  {
    if f.moduleSimulation then map[SerialSetting := w.serialName] else map[]
  }

  /** The events of the simulator bootstrap, in source order. */
  function SimulationEvents(f: Flags): (ev: seq<Event>)
    ensures StartSimulator in ev <==> f.moduleSimulation
  {
    if f.moduleSimulation then [CreateSimulator, ReadSerialName, AddBaseModule, StartSimulator]
    else []
  }

  /** Unless only the tests were asked for: the simulator bootstrap (under
      --module_simulation) and the server launch, as an outcome and events. */
  function DevServer(f: Flags, w: World): (Outcome, seq<Event>)
  {
    (ServerLaunched(!f.production, ServerSettings(f, w)), SimulationEvents(f))
  }

  /** The build runs only under --production. */
  function BuildStage(f: Flags, w: World, s: State): (r: Step)
    ensures r.s.bower == s.bower && r.s.bowerUser == s.bowerUser
    ensures r.stop.None? <==> BuildOk(f, w)
  {
    if f.production then Build.BuildPolymerApp(s, w) else Step(None, s, [])
  }

  /** main's Xvfb handle starts out empty; under --containerized the
      container is set up and the handle is the process it started. */
  function SetupStage(f: Flags, w: World, s: State): (r: Step)
    requires f.containerized ==> s.bowerUser == Absent
    ensures r.stop.None? <==> SetupOk(f, w)
    ensures f.containerized && r.stop.None? ==> r.s.bower == Link
    ensures !f.containerized ==> r.s.xvfb == NoProcess
  {
    var cleared := s.(xvfb := NoProcess);
    if f.containerized then Container.SetupContainer(cleared, w) else Step(None, cleared, [])
  }

  /** Under --containerized the container is torn down. */
  function TeardownStage(f: Flags, s: State): (r: Step)
    requires f.containerized ==> s.bower == Link
    ensures r.stop.None?
  {
    if f.containerized then Container.TeardownContainer(s) else Step(None, s, [])
  }

  /** The build and the container setup, in that order; the first step that
      ends the process stops the rest. */
  function BeforeTests(f: Flags, w: World, s: State): (r: Step)
    requires f.containerized ==> s.bowerUser == Absent
    ensures r.stop.None? <==> BuildOk(f, w) && SetupOk(f, w)
    ensures f.containerized && r.stop.None? ==> r.s.bower == Link
  {
    var built := BuildStage(f, w, s);
    if built.stop.Some? then built
    else
      var setup := SetupStage(f, w, built.s);
      Step(setup.stop, setup.s, built.events + setup.events)
  }

  /** The outcome, final state and event trace of one invocation. */
  datatype Run = Run(outcome: Outcome, s: State, events: seq<Event>)

  /** Past the test gate: the teardown, then either the exit of a tests-only
      run or the simulator and the server. */
  function AfterGate(f: Flags, w: World, s: State): (r: Run)
    requires f.containerized ==> s.bower == Link
  {
    var down := TeardownStage(f, s);
    if f.testOnly then Run(Exit(0), down.s, down.events)
    else
      var server := DevServer(f, w);
      Run(server.0, down.s, down.events + server.1)
  }

  /** Everything after the container setup: the tests, then the gate that
      exits with 1 on an unforced failure, then what follows the gate. */
  function FromTests(f: Flags, w: World, s: State): (r: Run)
    requires f.containerized ==> s.bower == Link
  {
    var tests := Tests.RunAllTests(f.keepOpen, w.pythonTestsPass, w.polymerTest);
    if !tests.passed && !f.force then Run(Exit(1), s, tests.events)
    else
      var rest := AfterGate(f, w, s);
      Run(rest.outcome, rest.s, tests.events + rest.events)
  }

  /** main after argument parsing, as a function of the parsed flags `f`, the
      collaborators' results `w` and the initial host state `s`. Moving into
      an existing `bower_components-user` is not modelled, so that name must
      be absent when the container is set up. */
  function Deploy(f: Flags, w: World, s: State): (r: Run)
    requires f.containerized ==> s.bowerUser == Absent
  {
    var prep := BeforeTests(f, w, s);
    if prep.stop.Some? then Run(prep.stop.value, prep.s, prep.events)
    else
      var rest := FromTests(f, w, prep.s);
      Run(rest.outcome, rest.s, prep.events + rest.events)
  }

  /** Concatenation of traces is associative. */
  lemma AppendAssoc(a: seq<Event>, b: seq<Event>, c: seq<Event>)
    ensures a + (b + c) == (a + b) + c
  {
  }

  /** The host the script runs on: the two bower names, the generated service
      worker, the Xvfb process it started, and the trace of what it did. */
  class Host {
    var bower: Entry
    var bowerUser: Entry
    var swAtRoot: bool
    var swBundled: bool
    var xvfb: Proc
    ghost var trace: seq<Event>

    /** The host state the script's steps are specified on. */
    function Snapshot(): State
      reads this`bower, this`bowerUser, this`swAtRoot, this`swBundled, this`xvfb
    {
      State(bower, bowerUser, swAtRoot, swBundled, xvfb)
    }

    /** build_polymer_app */
    method BuildPolymerApp(w: World) returns (stop: Option<Outcome>)
      modifies this`swAtRoot, this`swBundled, this`trace
      ensures var r := Build.BuildPolymerApp(old(Snapshot()), w);
              stop == r.stop && Snapshot() == r.s && trace == old(trace) + r.events
    {
      trace := trace + [PolymerBuild];
      if w.polymerBuild != 0 {
        return Some(Exit(1));
      }
      trace := trace + [SwPrecache];
      if w.swPrecache != 0 {
        return Some(Exit(1));
      }
      swAtRoot := true;
      trace := trace + [MoveServiceWorker];
      swAtRoot, swBundled := false, true;
      stop := None;
    }

    /** setup_container; the handle it returns is the `xvfb` field. */
    method SetupContainer(w: World) returns (stop: Option<Outcome>)
      requires bowerUser == Absent
      modifies this`bower, this`bowerUser, this`xvfb, this`trace
      ensures var r := Container.SetupContainer(old(Snapshot()), w);
              stop == r.stop && Snapshot() == r.s && trace == old(trace) + r.events
    {
      if w.display.None? {
        return Some(Uncaught(MissingEnvironmentVariable("DISPLAY")));
      }
      var display := w.display.value;
      trace := trace + [StartXvfb(Container.XvfbCommand(display))];
      xvfb := Container.PolledStatus(w.xvfbPoll);
      if Container.XvfbDiedEarly(w.xvfbPoll) {
        return Some(Exit(1));
      }
      if bower != Absent {
        bowerUser, bower := bower, Absent;
        trace := trace + [MoveUserComponents];
      }
      bower := Link;
      trace := trace + [LinkSharedComponents];
      stop := None;
    }

    /** teardown_container */
    method TeardownContainer()
      requires bower == Link
      modifies this`bower, this`bowerUser, this`xvfb, this`trace
      ensures var r := Container.TeardownContainer(old(Snapshot()));
              Snapshot() == r.s && trace == old(trace) + r.events
    {
      xvfb := Container.Terminate(xvfb);
      trace := trace + [TerminateXvfb];
      bower := Absent;
      trace := trace + [RemoveLink];
      if bowerUser != Absent {
        bower, bowerUser := bowerUser, Absent;
        trace := trace + [RestoreUserComponents];
      }
    }

    /** main, after the flags are parsed: the build and the container setup
        here, everything from the tests on in Finish. */
    method Run(f: Flags, w: World) returns (outcome: Outcome)
      requires f.containerized ==> bowerUser == Absent
      modifies this
      ensures var r := Deploy(f, w, old(Snapshot()));
              outcome == r.outcome && Snapshot() == r.s && trace == old(trace) + r.events
    {
      ghost var t0 := trace;
      ghost var built := BuildStage(f, w, Snapshot());
      var stop: Option<Outcome> := None;
      if f.production {
        stop := BuildPolymerApp(w);
        if stop.Some? {
          return stop.value;
        }
      }
      assert Snapshot() == built.s && trace == t0 + built.events;
      ghost var setup := SetupStage(f, w, built.s);
      xvfb := NoProcess;
      if f.containerized {
        stop := SetupContainer(w);
        AppendAssoc(t0, built.events, setup.events);
        if stop.Some? {
          return stop.value;
        }
      } else {
        assert built.events + setup.events == built.events;
      }
      ghost var prep := BeforeTests(f, w, old(Snapshot()));
      ghost var rest := FromTests(f, w, prep.s);
      outcome := Finish(f, w);
      AppendAssoc(t0, prep.events, rest.events);
    }

    /** The rest of main: the tests, the gate, the teardown and the dev
        server. */
    method Finish(f: Flags, w: World) returns (outcome: Outcome)
      requires f.containerized ==> bower == Link
      modifies this`bower, this`bowerUser, this`xvfb, this`trace
      ensures var r := FromTests(f, w, old(Snapshot()));
              outcome == r.outcome && Snapshot() == r.s && trace == old(trace) + r.events
    {
      ghost var s0, t0 := Snapshot(), trace;
      var tests := Tests.RunAllTests(f.keepOpen, w.pythonTestsPass, w.polymerTest);
      trace := trace + tests.events;
      if !tests.passed {
        if !f.force {
          return Exit(1);
        }
      }
      ghost var down := TeardownStage(f, s0);
      if f.containerized {
        TeardownContainer();
      } else {
        assert tests.events + down.events == tests.events;
      }
      if f.testOnly {
        AppendAssoc(t0, tests.events, down.events);
        return Exit(0);
      }
      outcome := LaunchDevServer(f, w);
      AppendAssoc(t0 + tests.events, down.events, DevServer(f, w).1);
      AppendAssoc(t0, tests.events, down.events + DevServer(f, w).1);
    }

    /** The dev-server tail of main: with module simulation, a simulator is
        created, its serial name stored in the settings, the base module added
        and the simulator started; then the server is launched. */
    method LaunchDevServer(f: Flags, w: World) returns (outcome: Outcome)
      modifies this`trace
      ensures var r := DevServer(f, w);
              outcome == r.0 && trace == old(trace) + r.1
    {
      var settings: map<string, string> := map[];
      if f.moduleSimulation {
        trace := trace + [CreateSimulator];
        trace := trace + [ReadSerialName];
        settings := settings[SerialSetting := w.serialName];
        trace := trace + [AddBaseModule];
        trace := trace + [StartSimulator];
      }
      outcome := ServerLaunched(!f.production, settings);
    }
  }
}
