/** What one invocation of the script guarantees, stated on the model of main
    (Deploy.Deploy) and proved from the stage contracts. */
module Properties {
  import opened Model
  import Tests
  import Build
  import Container
  import opened Deploy

  /** Extending an ordered trace whose events stand before `k` by an ordered
      segment that starts at `k` or later keeps it ordered. */
  lemma Extend(ev: seq<Event>, seg: seq<Event>, k: nat, k': nat)
    requires InSourceOrder(ev) && EndsBefore(ev, k)
    requires InSourceOrder(seg) && StartsFrom(seg, k) && EndsBefore(seg, k') && k <= k'
    ensures InSourceOrder(ev + seg) && EndsBefore(ev + seg, k')
  {
    OrderedConcat(ev, seg);
    if seg == [] {
      assert ev + seg == ev;
    } else {
      assert (ev + seg)[|ev + seg| - 1] == seg[|seg| - 1];
    }
  }

  /** The build's actions stand at positions 0 to 2, in order. */
  lemma BuildOrdered(f: Flags, w: World, s: State)
    ensures var ev := BuildStage(f, w, s).events;
            InSourceOrder(ev) && StartsFrom(ev, 0) && EndsBefore(ev, 3)
  {
  }

  /** The setup's actions stand at positions 3 to 5, in order. */
  lemma SetupOrdered(f: Flags, w: World, s: State)
    requires f.containerized ==> s.bowerUser == Absent
    ensures var ev := SetupStage(f, w, s).events;
            InSourceOrder(ev) && StartsFrom(ev, 3) && EndsBefore(ev, 6)
  {
    var ev := SetupStage(f, w, s).events;
    if |ev| == 3 {
      assert ev[1..] == [MoveUserComponents, LinkSharedComponents];
      assert ev[1..][1..] == [LinkSharedComponents];
    } else if |ev| == 2 {
      assert ev[1..] == [LinkSharedComponents];
    }
  }

  /** The test suites stand at positions 6 and 7, in order. */
  lemma TestsOrdered(keepOpen: bool, pythonOk: bool, jsRetcode: int)
    ensures var ev := Tests.RunAllTests(keepOpen, pythonOk, jsRetcode).events;
            InSourceOrder(ev) && StartsFrom(ev, 6) && EndsBefore(ev, 8)
  {
  }

  /** The teardown's actions stand at positions 8 to 10, in order. */
  lemma TeardownOrdered(f: Flags, s: State)
    requires f.containerized ==> s.bower == Link
    ensures var ev := TeardownStage(f, s).events;
            InSourceOrder(ev) && StartsFrom(ev, 8) && EndsBefore(ev, 11)
  {
  }

  /** The simulator bootstrap stands at positions 11 to 14, in order. */
  lemma SimulationOrdered(f: Flags)
    ensures var ev := SimulationEvents(f);
            InSourceOrder(ev) && StartsFrom(ev, 11) && EndsBefore(ev, 15)
  {
    var ev := SimulationEvents(f);
    if f.moduleSimulation {
      assert ev[1..] == [ReadSerialName, AddBaseModule, StartSimulator];
      assert ev[1..][1..] == [AddBaseModule, StartSimulator];
      assert ev[1..][1..][1..] == [StartSimulator];
      assert InSourceOrder(ev[1..][1..]);
    }
  }

  /** The actions up to the tests are in source order and end before them. */
  lemma BeforeTestsOrdered(f: Flags, w: World, s: State)
    requires f.containerized ==> s.bowerUser == Absent
    ensures var ev := BeforeTests(f, w, s).events;
            InSourceOrder(ev) && EndsBefore(ev, 6)
  {
    var built := BuildStage(f, w, s);
    BuildOrdered(f, w, s);
    if built.stop.None? {
      SetupOrdered(f, w, built.s);
      Extend(built.events, SetupStage(f, w, built.s).events, 3, 6);
    }
  }

  /** The actions past the gate are in source order and start with the
      teardown. */
  lemma AfterGateOrdered(f: Flags, w: World, s: State)
    requires f.containerized ==> s.bower == Link
    ensures var ev := AfterGate(f, w, s).events;
            InSourceOrder(ev) && StartsFrom(ev, 8)
  {
    var down := TeardownStage(f, s);
    TeardownOrdered(f, s);
    if !f.testOnly {
      SimulationOrdered(f);
      Extend(down.events, SimulationEvents(f), 11, 15);
    }
  }

  /** The actions from the tests on are in source order and start with them. */
  lemma FromTestsOrdered(f: Flags, w: World, s: State)
    requires f.containerized ==> s.bower == Link
    ensures var ev := FromTests(f, w, s).events;
            InSourceOrder(ev) && StartsFrom(ev, 6)
  {
    var tests := Tests.RunAllTests(f.keepOpen, w.pythonTestsPass, w.polymerTest);
    TestsOrdered(f.keepOpen, w.pythonTestsPass, w.polymerTest);
    if tests.passed || f.force {
      AfterGateOrdered(f, w, s);
      OrderedConcat(tests.events, AfterGate(f, w, s).events);
    }
  }

  /** Every invocation performs its actions in the order of the script's
      text, so none happens twice and none out of order. */
  lemma {:induction false} DeployInSourceOrder(f: Flags, w: World, s: State)
    requires f.containerized ==> s.bowerUser == Absent
    ensures InSourceOrder(Deploy.Deploy(f, w, s).events)
  {
    var prep := BeforeTests(f, w, s);
    BeforeTestsOrdered(f, w, s);
    if prep.stop.None? {
      var rest := FromTests(f, w, prep.s);
      FromTestsOrdered(f, w, prep.s);
      OrderedConcat(prep.events, rest.events);
    }
  }

  /** Control reaches the tests: neither the build nor the setup ended the
      process. */
  predicate ReachesTests(f: Flags, w: World)
  {
    BuildOk(f, w) && SetupOk(f, w)
  }

  /** When the script performs action `e`, read off the script case by case:
      the build steps need the production flag and the earlier steps'
      success; the container steps need the containerized flag; the test
      suites need the build and setup to have gone through, the JS suite also
      a passing Python suite; the teardown needs the test gate passed; the
      simulator needs the gate passed, no --test-only and --module_simulation.
      Actions whose arguments are recorded happen only with the arguments the
      script passes. */
  predicate Happens(f: Flags, w: World, s: State, e: Event)
  {
    match e
    case PolymerBuild => f.production
    case SwPrecache => f.production && w.polymerBuild == 0
    case MoveServiceWorker => f.production && w.polymerBuild == 0 && w.swPrecache == 0
    case StartXvfb(cmd) =>
      BuildOk(f, w) && f.containerized && w.display.Some? &&
      cmd == Container.XvfbCommand(w.display.value)
    case MoveUserComponents => ReachesTests(f, w) && f.containerized && s.bower != Absent
    case LinkSharedComponents => ReachesTests(f, w) && f.containerized
    case PythonTests => ReachesTests(f, w)
    case JsTests(cmd) =>
      ReachesTests(f, w) && w.pythonTestsPass && cmd == Tests.JsTestCommand(f.keepOpen)
    case TerminateXvfb => f.containerized && PastGate(f, w)
    case RemoveLink => f.containerized && PastGate(f, w)
    case RestoreUserComponents => f.containerized && PastGate(f, w) && s.bower != Absent
    case CreateSimulator => PastGate(f, w) && !f.testOnly && f.moduleSimulation
    case ReadSerialName => PastGate(f, w) && !f.testOnly && f.moduleSimulation
    case AddBaseModule => PastGate(f, w) && !f.testOnly && f.moduleSimulation
    case StartSimulator => PastGate(f, w) && !f.testOnly && f.moduleSimulation
  }

  /** The build stage performs the build actions Happens describes. */
  lemma BuildEvents(f: Flags, w: World, s: State, e: Event)
    requires Position(e) < 3
    ensures e in BuildStage(f, w, s).events <==> Happens(f, w, s, e)
  {
  }

  /** Once the build went through, the setup stage performs the setup
      actions Happens describes. */
  lemma SetupEvents(f: Flags, w: World, s: State, e: Event)
    requires f.containerized ==> s.bowerUser == Absent
    requires BuildOk(f, w) && 3 <= Position(e) < 6
    ensures var built := BuildStage(f, w, s);
            e in SetupStage(f, w, built.s).events <==> Happens(f, w, s, e)
  {
  }

  /** The tests, once reached, run the suites Happens describes. */
  lemma TestsEvents(f: Flags, w: World, s: State, e: Event)
    requires ReachesTests(f, w) && 6 <= Position(e) < 8
    ensures e in Tests.RunAllTests(f.keepOpen, w.pythonTestsPass, w.polymerTest).events
            <==> Happens(f, w, s, e)
  {
  }

  /** Once the gate is passed, the teardown performs the teardown actions
      Happens describes; `t` is the state after the setup, which holds the
      user's directory (if any) under `bower_components-user`. */
  lemma TeardownEvents(f: Flags, w: World, s: State, t: State, e: Event)
    requires PastGate(f, w) && 8 <= Position(e) < 11
    requires f.containerized ==> t.bower == Link && t.bowerUser == s.bower
    ensures e in TeardownStage(f, t).events <==> Happens(f, w, s, e)
  {
  }

  /** Once the gate is passed and the server is to run, the bootstrap
      performs the simulator actions Happens describes. */
  lemma SimulatorEvents(f: Flags, w: World, s: State, e: Event)
    requires PastGate(f, w) && !f.testOnly && 11 <= Position(e)
    ensures e in SimulationEvents(f) <==> Happens(f, w, s, e)
  {
  }

  /** Past the gate, the script performs the actions Happens describes. */
  lemma AfterGateEvents(f: Flags, w: World, s: State, t: State, e: Event)
    requires PastGate(f, w) && 8 <= Position(e)
    requires f.containerized ==> t.bower == Link && t.bowerUser == s.bower
    ensures e in AfterGate(f, w, t).events <==> Happens(f, w, s, e)
  {
    var down := TeardownStage(f, t);
    TeardownOrdered(f, t);
    SimulationOrdered(f);
    if Position(e) < 11 {
      TeardownEvents(f, w, s, t, e);
      AbsentBefore(SimulationEvents(f), 11, e);
    } else {
      AbsentAfter(down.events, 11, e);
      if !f.testOnly {
        SimulatorEvents(f, w, s, e);
      }
    }
  }

  /** From the tests on, the script performs the actions Happens describes. */
  lemma LaterEvents(f: Flags, w: World, s: State, t: State, e: Event)
    requires ReachesTests(f, w) && 6 <= Position(e)
    requires f.containerized ==> t.bower == Link && t.bowerUser == s.bower
    ensures e in FromTests(f, w, t).events <==> Happens(f, w, s, e)
  {
    var tests := Tests.RunAllTests(f.keepOpen, w.pythonTestsPass, w.polymerTest);
    TestsOrdered(f.keepOpen, w.pythonTestsPass, w.polymerTest);
    if Position(e) < 8 {
      TestsEvents(f, w, s, e);
    } else {
      AbsentAfter(tests.events, 8, e);
    }
    if tests.passed || f.force {
      if Position(e) < 8 {
        AfterGateOrdered(f, w, t);
        AbsentBefore(AfterGate(f, w, t).events, 8, e);
      } else {
        AfterGateEvents(f, w, s, t, e);
      }
    }
  }

  /** Up to the tests, the script performs the actions Happens describes. */
  lemma EarlierEvents(f: Flags, w: World, s: State, e: Event)
    requires f.containerized ==> s.bowerUser == Absent
    requires Position(e) < 6
    ensures e in BeforeTests(f, w, s).events <==> Happens(f, w, s, e)
  {
    var built := BuildStage(f, w, s);
    BuildOrdered(f, w, s);
    if Position(e) < 3 {
      BuildEvents(f, w, s, e);
      if built.stop.None? {
        SetupOrdered(f, w, built.s);
        AbsentBefore(SetupStage(f, w, built.s).events, 3, e);
      }
    } else {
      AbsentAfter(built.events, 3, e);
      if built.stop.None? {
        SetupEvents(f, w, s, e);
      }
    }
  }

  /** The script performs action `e` exactly in the circumstances Happens
      describes. */
  lemma DeployEvents(f: Flags, w: World, s: State, e: Event)
    requires f.containerized ==> s.bowerUser == Absent
    ensures e in Deploy.Deploy(f, w, s).events <==> Happens(f, w, s, e)
  {
    var prep := BeforeTests(f, w, s);
    BeforeTestsOrdered(f, w, s);
    if Position(e) < 6 {
      EarlierEvents(f, w, s, e);
    } else {
      AbsentAfter(prep.events, 6, e);
    }
    if prep.stop.None? {
      var rest := FromTests(f, w, prep.s);
      if Position(e) < 6 {
        FromTestsOrdered(f, w, prep.s);
        AbsentBefore(rest.events, 6, e);
      } else {
        LaterEvents(f, w, s, prep.s, e);
      }
    }
  }

  /** Within one invocation, every action placed earlier in the script
      precedes every action placed later. */
  lemma DeployOrder(f: Flags, w: World, s: State, x: Event, y: Event)
    requires f.containerized ==> s.bowerUser == Absent
    requires Position(x) < Position(y)
    ensures Precedes(Deploy.Deploy(f, w, s).events, x, y)
  {
    DeployInSourceOrder(f, w, s);
    OrderedPrecedes(Deploy.Deploy(f, w, s).events, x, y);
  }

  /** The build is over before the container is set up and before the
      tests, and the link is in place before the tests. */
  lemma BuildAndSetupBeforeTests(f: Flags, w: World, s: State, cmd: seq<string>)
    requires f.containerized ==> s.bowerUser == Absent
    ensures Precedes(Deploy.Deploy(f, w, s).events, MoveServiceWorker, StartXvfb(cmd))
    ensures Precedes(Deploy.Deploy(f, w, s).events, MoveServiceWorker, PythonTests)
    ensures Precedes(Deploy.Deploy(f, w, s).events, LinkSharedComponents, PythonTests)
  {
    DeployOrder(f, w, s, MoveServiceWorker, StartXvfb(cmd));
    DeployOrder(f, w, s, MoveServiceWorker, PythonTests);
    DeployOrder(f, w, s, LinkSharedComponents, PythonTests);
  }

  /** The teardown comes after the tests (after the Python suite, and after
      the JS suite when it ran) and terminates Xvfb before it removes the
      link. */
  lemma TeardownAfterTests(f: Flags, w: World, s: State)
    requires f.containerized ==> s.bowerUser == Absent
    ensures Precedes(Deploy.Deploy(f, w, s).events, PythonTests, TerminateXvfb)
    ensures Precedes(Deploy.Deploy(f, w, s).events, JsTests(Tests.JsTestCommand(f.keepOpen)), TerminateXvfb)
    ensures Precedes(Deploy.Deploy(f, w, s).events, TerminateXvfb, RemoveLink)
  {
    DeployOrder(f, w, s, PythonTests, TerminateXvfb);
    DeployOrder(f, w, s, JsTests(Tests.JsTestCommand(f.keepOpen)), TerminateXvfb);
    DeployOrder(f, w, s, TerminateXvfb, RemoveLink);
  }

  /** The serial name is read before the base module is added, and the
      module is added before the simulator starts. */
  lemma SimulatorOrder(f: Flags, w: World, s: State)
    requires f.containerized ==> s.bowerUser == Absent
    ensures Precedes(Deploy.Deploy(f, w, s).events, ReadSerialName, AddBaseModule)
    ensures Precedes(Deploy.Deploy(f, w, s).events, AddBaseModule, StartSimulator)
  {
    DeployOrder(f, w, s, ReadSerialName, AddBaseModule);
    DeployOrder(f, w, s, AddBaseModule, StartSimulator);
  }

  /** No action is performed twice in one invocation. */
  lemma DeployOnce(f: Flags, w: World, s: State, e: Event)
    requires f.containerized ==> s.bowerUser == Absent
    ensures Count(Deploy.Deploy(f, w, s).events, e) <= 1
  {
    var t := Deploy.Deploy(f, w, s).events;
    if e in t {
      DeployInSourceOrder(f, w, s);
      OccursOnce(t, e);
    }
  }

  /** How an invocation ends: the server is launched exactly when the gate is
      passed and more than the tests was asked for, in development mode
      exactly without --production and with the serial setting exactly under
      --module_simulation; a tests-only run that passes the gate exits with 0;
      a missing DISPLAY escapes as an uncaught error; every other stop (a
      failed build step, an Xvfb that died, an unforced test failure) exits
      with 1. */
  lemma DeployOutcome(f: Flags, w: World, s: State)
    requires f.containerized ==> s.bowerUser == Absent
    ensures var o := Deploy.Deploy(f, w, s).outcome;
            && (o.ServerLaunched? <==> PastGate(f, w) && !f.testOnly)
            && (o.ServerLaunched? ==>
                  o.devMode == !f.production && o.settings == ServerSettings(f, w))
            && (o == Exit(0) <==> PastGate(f, w) && f.testOnly)
            && (o == Uncaught(MissingEnvironmentVariable("DISPLAY")) <==>
                  BuildOk(f, w) && f.containerized && w.display.None?)
            && (o == Exit(1) <==>
                  !PastGate(f, w) && !(BuildOk(f, w) && f.containerized && w.display.None?))
  {
  }

  /** The generated service worker: a production build that goes through
      moves it from the project root into build/bundled; otherwise both are
      as they were. */
  lemma DeployServiceWorker(f: Flags, w: World, s: State)
    requires f.containerized ==> s.bowerUser == Absent
    ensures var r := Deploy.Deploy(f, w, s).s;
            && (f.production && BuildOk(f, w) ==> r.swBundled && !r.swAtRoot)
            && (!(f.production && BuildOk(f, w)) ==>
                  r.swBundled == s.swBundled && r.swAtRoot == s.swAtRoot)
  {
  }

  /** The two bower names at the end: untouched unless the setup went
      through; restored (the user's directory, or nothing, back under its
      own name and no user copy) once the gate is passed; but after an
      unforced test failure the link is left in place and the user's
      directory stays under `bower_components-user`. */
  lemma DeployComponents(f: Flags, w: World, s: State)
    requires f.containerized ==> s.bowerUser == Absent
    ensures var r := Deploy.Deploy(f, w, s).s;
            && (!(f.containerized && ReachesTests(f, w)) ==>
                  r.bower == s.bower && r.bowerUser == s.bowerUser)
            && (f.containerized && PastGate(f, w) ==>
                  r.bower == s.bower && r.bowerUser == Absent)
            && (f.containerized && ReachesTests(f, w) && !PastGate(f, w) ==>
                  r.bower == Link && r.bowerUser == s.bower)
  {
  }

  /** The Xvfb handle at the end: untouched when the build stopped the
      process, None when not containerized, and otherwise the polled process,
      terminated once the gate is passed but left as it was (running, if it
      was) after an unforced test failure. */
  lemma DeployXvfb(f: Flags, w: World, s: State)
    requires f.containerized ==> s.bowerUser == Absent
    ensures var r := Deploy.Deploy(f, w, s).s;
            && (!BuildOk(f, w) ==> r.xvfb == s.xvfb)
            && (BuildOk(f, w) && !(f.containerized && w.display.Some?) ==>
                  r.xvfb == NoProcess)
            && (BuildOk(f, w) && f.containerized && w.display.Some? && !PastGate(f, w) ==>
                  r.xvfb == Container.PolledStatus(w.xvfbPoll))
            && (f.containerized && PastGate(f, w) ==>
                  r.xvfb == Container.Terminate(Container.PolledStatus(w.xvfbPoll)) &&
                  r.xvfb != Running)
  {
  }
}
