/** The production build stage (build_polymer_app): `polymer build`, then
    `sw-precache`, then the generated `service-worker.js` is renamed into
    `build/bundled/`. A non-zero return code from either command exits with 1. */
module Build {
  import opened Model

  /** A successful sw-precache run leaves `service-worker.js` at the project
      root; the rename then moves it under `build/bundled/`. */
  function BuildPolymerApp(s: State, w: World): (r: Step)
    ensures r.stop.Some? <==> w.polymerBuild != 0 || w.swPrecache != 0
    ensures r.stop.Some? ==> r.stop == Some(Exit(1))
    ensures |r.events| >= 1 && r.events[0] == PolymerBuild
    ensures w.polymerBuild != 0 ==> r.events == [PolymerBuild] && r.s == s
    ensures w.polymerBuild == 0 && w.swPrecache != 0 ==>
              r.events == [PolymerBuild, SwPrecache] && r.s == s
    ensures MoveServiceWorker in r.events <==> r.stop.None?
    ensures r.stop.None? ==> r.s.swBundled && !r.s.swAtRoot
    ensures r.s.bower == s.bower && r.s.bowerUser == s.bowerUser && r.s.xvfb == s.xvfb
  {
    if w.polymerBuild != 0 then Step(Some(Exit(1)), s, [PolymerBuild])
    else if w.swPrecache != 0 then Step(Some(Exit(1)), s, [PolymerBuild, SwPrecache])
    else
      var generated := s.(swAtRoot := true);
      var renamed := generated.(swAtRoot := false, swBundled := true);
      Step(None, renamed, [PolymerBuild, SwPrecache, MoveServiceWorker])
  }
}
