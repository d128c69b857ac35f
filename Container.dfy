/** The container environment (setup_container / teardown_container): an Xvfb
    display server, and `bower_components` swapped for a symlink to the
    system-wide `/bower_components` while the tests run. */
module Container {
  import opened Model

  /** The argument vector that launches Xvfb on the given display. */
  function XvfbCommand(display: string): (cmd: seq<string>)
    ensures |cmd| == 6 && cmd[0] == "Xvfb" && cmd[1] == display
    ensures cmd[2..] == ["-ac", "-screen", "0", "1920x1080x24"]
  {
    ["Xvfb", display, "-ac", "-screen", "0", "1920x1080x24"]
  }

  /** The liveness check fails only for a process that has ended with a
      non-zero return code; one that ended with 0 passes it. */
  predicate XvfbDiedEarly(poll: Option<int>)
  {
    poll.Some? && poll.value != 0
  }

  /** The handle status right after the liveness check. */
  function PolledStatus(poll: Option<int>): (p: Proc)
    ensures p == Running <==> poll.None?
    ensures poll.Some? ==> p == ExitedEarly(poll.value)
  {
    match poll
    case None => Running
    case Some(code) => ExitedEarly(code)
  }

  /** setup_container. A missing DISPLAY raises before anything happens; an
      Xvfb that died with a non-zero code exits with 1 before the filesystem is
      touched; otherwise an existing `bower_components` is moved (not deleted)
      to `bower_components-user` and replaced by the symlink. */
  function SetupContainer(s: State, w: World): (r: Step)
    requires s.bowerUser == Absent
    ensures w.display.None? ==>
              r == Step(Some(Uncaught(MissingEnvironmentVariable("DISPLAY"))), s, [])
    ensures w.display.Some? ==>
              |r.events| >= 1 && r.events[0] == StartXvfb(XvfbCommand(w.display.value))
    ensures w.display.Some? ==> r.s.xvfb == PolledStatus(w.xvfbPoll)
    ensures w.display.Some? && XvfbDiedEarly(w.xvfbPoll) ==>
              r.stop == Some(Exit(1)) && |r.events| == 1
    ensures r.stop.Some? ==> r.s.bower == s.bower && r.s.bowerUser == s.bowerUser
    ensures r.stop.None? <==> w.display.Some? && !XvfbDiedEarly(w.xvfbPoll)
    ensures r.stop.None? ==> r.s.bower == Link && r.s.bowerUser == s.bower
    ensures MoveUserComponents in r.events <==> r.stop.None? && s.bower != Absent
    ensures LinkSharedComponents in r.events <==> r.stop.None?
    ensures r.s.swAtRoot == s.swAtRoot && r.s.swBundled == s.swBundled
  {
    match w.display
    case None => Step(Some(Uncaught(MissingEnvironmentVariable("DISPLAY"))), s, [])
    case Some(display) =>
      var started := s.(xvfb := PolledStatus(w.xvfbPoll));
      var launch := [StartXvfb(XvfbCommand(display))];
      if XvfbDiedEarly(w.xvfbPoll) then Step(Some(Exit(1)), started, launch)
      else if started.bower != Absent then
        var moved := started.(bowerUser := started.bower, bower := Absent);
        Step(None, moved.(bower := Link), launch + [MoveUserComponents, LinkSharedComponents])
      else
        Step(None, started.(bower := Link), launch + [LinkSharedComponents])
  }

  /** Terminating a running process stops it; terminating one that has
      already ended changes nothing. */
  function Terminate(p: Proc): (q: Proc)
    ensures q != Running
    ensures p != Running ==> q == p
  {
    if p == Running then Terminated else p
  }

  /** teardown_container. The process is terminated first; the removal of
      `bower_components` is unconditional, so the name must exist and be the
      link; the user copy is moved back only if it exists. */
  function TeardownContainer(s: State): (r: Step)
    requires s.bower == Link
    ensures r.stop == None
    ensures |r.events| >= 2 && r.events[0] == TerminateXvfb && r.events[1] == RemoveLink
    ensures r.s.xvfb == Terminate(s.xvfb)
    ensures r.s.bower == s.bowerUser && r.s.bowerUser == Absent
    ensures RestoreUserComponents in r.events <==> s.bowerUser != Absent
    ensures r.s.swAtRoot == s.swAtRoot && r.s.swBundled == s.swBundled
  {
    var stopped := s.(xvfb := Terminate(s.xvfb));
    var removed := stopped.(bower := Absent);
    if removed.bowerUser != Absent then
      Step(None, removed.(bower := removed.bowerUser, bowerUser := Absent),
           [TerminateXvfb, RemoveLink, RestoreUserComponents])
    else
      Step(None, removed, [TerminateXvfb, RemoveLink])
  }

  /** Setup followed by teardown leaves both names as they were before setup
      (a user directory back in place and no link), and no Xvfb running. */
  lemma SetupThenTeardownRestores(s: State, w: World)
    requires s.bowerUser == Absent
    requires SetupContainer(s, w).stop.None?
    ensures var after := TeardownContainer(SetupContainer(s, w).s).s;
            after.bower == s.bower && after.bowerUser == Absent && after.xvfb != Running
    ensures s.bower == Dir ==> TeardownContainer(SetupContainer(s, w).s).s.bower == Dir
    ensures s.bower == Absent ==>
              var after := TeardownContainer(SetupContainer(s, w).s).s;
              after.bower == Absent && after.bowerUser == Absent
  {
  }
}
