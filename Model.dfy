/** Shared vocabulary of the deploy script model: the invocation flags, the
    results that the external collaborators report, the two-name filesystem
    fragment, the Xvfb process status, the event trace and the outcomes. */
module Model {

  datatype Option<+T> = None | Some(value: T)

  /** The six command-line switches, already parsed. */
  datatype Flags = Flags(
    production: bool,
    testOnly: bool,
    moduleSimulation: bool,
    force: bool,
    containerized: bool,
    keepOpen: bool)

  /** What the opaque collaborators report when they are invoked.
      `xvfbPoll` is the value of `poll()` half a second after Xvfb was launched:
      None while the process still runs, Some(returncode) once it has ended. */
  datatype World = World(
    polymerBuild: int,          // return code of `polymer build`
    swPrecache: int,            // return code of `sw-precache --config ...`
    pythonTestsPass: bool,      // wasSuccessful() of the unittest run
    polymerTest: int,           // return code of `polymer test [-p]`
    display: Option<string>,    // the DISPLAY environment variable
    xvfbPoll: Option<int>,
    serialName: string)         // what the simulator's get_serial_name() returns

  /** What a name relative to the working directory refers to. */
  datatype Entry = Absent | Dir | Link

  /** The Xvfb process handle; NoProcess is main's empty handle before any setup. */
  datatype Proc = NoProcess | Running | ExitedEarly(code: int) | Terminated

  /** The part of the host the script changes: `bower_components`,
      `bower_components-user`, the generated `service-worker.js` at the project
      root and its copy under `build/bundled/`, and the Xvfb process. */
  datatype State = State(
    bower: Entry,
    bowerUser: Entry,
    swAtRoot: bool,
    swBundled: bool,
    xvfb: Proc)

  /** Externally visible actions, in the order the script performs them. */
  datatype Event =
    | PolymerBuild                      // the Polymer build command
    | SwPrecache                        // the service-worker generator
    | MoveServiceWorker                 // the generated worker renamed into build/bundled
    | PythonTests                       // the Python unit-test suite
    | JsTests(command: seq<string>)     // the Polymer test command, with its arguments
    | StartXvfb(command: seq<string>)   // the Xvfb launch, with its arguments
    | MoveUserComponents                // bower_components moved to bower_components-user
    | LinkSharedComponents              // bower_components made a link to /bower_components
    | TerminateXvfb                     // the Xvfb process terminated
    | RemoveLink                        // bower_components removed
    | RestoreUserComponents             // bower_components-user moved back
    | CreateSimulator                   // the module simulator created
    | ReadSerialName                    // the simulator's serial port name read
    | AddBaseModule                     // the base module added to the simulator
    | StartSimulator                    // the simulator started

  /** An exception the script does not catch. */
  datatype Fault = MissingEnvironmentVariable(name: string)

  /** How one invocation of the script ends: sys.exit / normal return, an
      uncaught exception, or control handed to the blocking dev server. */
  datatype Outcome =
    | Exit(code: int)
    | Uncaught(fault: Fault)
    | ServerLaunched(devMode: bool, settings: map<string, string>)

  /** The effect of one stage: `stop` is Some when the stage ends the process. */
  datatype Step = Step(stop: Option<Outcome>, s: State, events: seq<Event>)

  /** Number of occurrences of `e` in the trace `t`. */
  function Count(t: seq<Event>, e: Event): (n: nat)
    ensures n == 0 <==> e !in t
    ensures n <= |t|
  {
    if t == [] then 0
    else (if t[0] == e then 1 else 0) + Count(t[1..], e)
  }

  /** Where an action stands in the script, reading main and the functions
      it calls from top to bottom. */
  function Position(e: Event): nat
  {
    match e
    case PolymerBuild => 0
    case SwPrecache => 1
    case MoveServiceWorker => 2
    case StartXvfb(_) => 3
    case MoveUserComponents => 4
    case LinkSharedComponents => 5
    case PythonTests => 6
    case JsTests(_) => 7
    case TerminateXvfb => 8
    case RemoveLink => 9
    case RestoreUserComponents => 10
    case CreateSimulator => 11
    case ReadSerialName => 12
    case AddBaseModule => 13
    case StartSimulator => 14
  }

  /** The trace follows the script's text: each event stands further down than
      the one before it, so no action happens twice and none out of order. */
  ghost predicate InSourceOrder(t: seq<Event>)
  {
    |t| <= 1 || (Position(t[0]) < Position(t[1]) && InSourceOrder(t[1..]))
  }

  /** The trace is empty or its first event stands at position `k` or later. */
  ghost predicate StartsFrom(t: seq<Event>, k: nat)
  {
    t == [] || k <= Position(t[0])
  }

  /** The trace is empty or its last event stands before position `k`. */
  ghost predicate EndsBefore(t: seq<Event>, k: nat)
  {
    t == [] || Position(t[|t| - 1]) < k
  }

  /** Every occurrence of `x` in `t` comes before every occurrence of `y`. */
  ghost predicate Precedes(t: seq<Event>, x: Event, y: Event)
  {
    forall i, j :: 0 <= i < |t| && 0 <= j < |t| && t[i] == x && t[j] == y ==> i < j
  }

  /** In a trace in source order, positions strictly increase along the trace. */
  lemma {:induction false} OrderedAt(t: seq<Event>, i: nat, j: nat)
    requires InSourceOrder(t) && i < j < |t|
    ensures Position(t[i]) < Position(t[j])
  {
    if i == 0 {
      if j > 1 {
        OrderedAt(t[1..], 0, j - 1);
      }
    } else {
      OrderedAt(t[1..], i - 1, j - 1);
    }
  }

  /** Every event of a trace in source order lies between its first and its
      last event. */
  lemma OrderedBounds(t: seq<Event>, e: Event)
    requires InSourceOrder(t) && e in t
    ensures Position(t[0]) <= Position(e) <= Position(t[|t| - 1])
  {
    var k :| 0 <= k < |t| && t[k] == e;
    if 0 < k { OrderedAt(t, 0, k); }
    if k < |t| - 1 { OrderedAt(t, k, |t| - 1); }
  }

  /** An action placed before the first event of an ordered trace is not in it. */
  lemma AbsentBefore(t: seq<Event>, k: nat, e: Event)
    requires InSourceOrder(t) && StartsFrom(t, k) && Position(e) < k
    ensures e !in t
  {
  }

  /** An action placed after the last event of an ordered trace is not in it. */
  lemma AbsentAfter(t: seq<Event>, k: nat, e: Event)
    requires InSourceOrder(t) && EndsBefore(t, k) && k <= Position(e)
    ensures e !in t
  {
    if e in t { OrderedBounds(t, e); }
  }

  /** Two ordered traces, the first ending before the second starts, make an
      ordered trace. */
  lemma {:induction false} OrderedConcat(a: seq<Event>, b: seq<Event>)
    requires InSourceOrder(a) && InSourceOrder(b)
    requires a == [] || b == [] || Position(a[|a| - 1]) < Position(b[0])
    ensures InSourceOrder(a + b)
  {
    if a == [] {
      assert a + b == b;
    } else if |a| == 1 {
      assert a + b == [a[0]] + b;
    } else {
      assert (a + b)[1..] == a[1..] + b;
      OrderedConcat(a[1..], b);
    }
  }

  /** An action that occurs in a trace in source order occurs exactly once. */
  lemma {:induction false} OccursOnce(t: seq<Event>, e: Event)
    requires InSourceOrder(t) && e in t
    ensures Count(t, e) == 1
  {
    if t[0] == e {
      if e in t[1..] {
        var k :| 0 <= k < |t[1..]| && t[1..][k] == e;
        OrderedAt(t, 0, k + 1);
      }
    } else {
      OccursOnce(t[1..], e);
    }
  }

  /** In a trace in source order, an action placed earlier in the script
      precedes every action placed later. */
  lemma OrderedPrecedes(t: seq<Event>, x: Event, y: Event)
    requires InSourceOrder(t) && Position(x) < Position(y)
    ensures Precedes(t, x, y)
  {
    forall i, j | 0 <= i < |t| && 0 <= j < |t| && t[i] == x && t[j] == y
      ensures i < j
    {
      if j < i { OrderedAt(t, j, i); }
    }
  }
}
