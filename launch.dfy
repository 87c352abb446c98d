/**
  The entry point agent/autonomous_agent.py from the call of
  run_autonomous_agent on: the keywords it passes, the exceptions it
  catches and the exit status it ends with.

  As written, main passes a `skip_init` keyword that run_autonomous_agent
  does not declare, so the call raises TypeError before any session
  starts, whatever the command line says. The corrected entry point
  declares the keyword and goes straight to coding mode with it.
 */
module Launch {
  import opened Wrappers
  import opened Agent

  /** The keyword parameters of run_autonomous_agent as written. */
  const DeclaredParameters: set<string> := {"project_dir", "model", "max_iterations", "init_only"}

  /** The keywords main passes to it. */
  const PassedKeywords: set<string> := {"project_dir", "model", "max_iterations", "init_only", "skip_init"}

  /** How the process ends: its exit status, and the loop's record when the loop ran. */
  datatype Exit = Exit(code: int, run: Option<Run>)

  /**
    The call of run_autonomous_agent inside main's try block against a
    function declaring `declared`. An unexpected keyword raises TypeError,
    reported as a fatal error with status 1; otherwise the loop runs, and
    both a normal end and a Ctrl+C escaping the loop end with status 0.
   */
  function LaunchWith(declared: set<string>, turns: seq<Turn>, maxIterations: int, initOnly: bool,
                      skipInit: bool, marker: bool): (e: Exit)
    requires maxIterations <= |turns|
    ensures e.code == 0 <==> e.run.Some?
    ensures e.code == 1 <==> !(PassedKeywords <= declared)
    ensures e.run.Some? ==> e.run.value == Loop(turns, maxIterations, initOnly, skipInit, marker)
  {
    if !(PassedKeywords <= declared) then Exit(1, None)
    // a run that ends Escaped is caught as KeyboardInterrupt, which also exits with 0
    else Exit(0, Some(Loop(turns, maxIterations, initOnly, skipInit, marker)))
  }

  /** main as written. */
  function LaunchAsWritten(turns: seq<Turn>, maxIterations: int, initOnly: bool, skipInit: bool, marker: bool): Exit
    requires maxIterations <= |turns|
  {
    LaunchWith(DeclaredParameters, turns, maxIterations, initOnly, skipInit, marker)
  }

  /** main with run_autonomous_agent declaring `skip_init`. */
  function LaunchCorrected(turns: seq<Turn>, maxIterations: int, initOnly: bool, skipInit: bool, marker: bool): Exit
    requires maxIterations <= |turns|
  {
    LaunchWith(DeclaredParameters + {"skip_init"}, turns, maxIterations, initOnly, skipInit, marker)
  }

  /** As written, every launch fails with status 1 and runs no session, with or without --skip-init. */
  lemma SkipInitRejected(turns: seq<Turn>, maxIterations: int, initOnly: bool, skipInit: bool, marker: bool)
    requires maxIterations <= |turns|
    ensures LaunchAsWritten(turns, maxIterations, initOnly, skipInit, marker) == Exit(1, None)
  {
    assert "skip_init" in PassedKeywords && "skip_init" !in DeclaredParameters;
  }

  /**
    Corrected, a launch without --skip-init runs run_autonomous_agent as
    written, and ends with status 0.
   */
  lemma CorrectedRunsLoop(turns: seq<Turn>, maxIterations: int, initOnly: bool, marker: bool)
    requires maxIterations <= |turns|
    ensures LaunchCorrected(turns, maxIterations, initOnly, false, marker) ==
            Exit(0, Some(Loop(turns, maxIterations, initOnly, false, marker)))
  {
    assert PassedKeywords <= DeclaredParameters + {"skip_init"};
  }

  /**
    Corrected, the first session's mode is the one main announces: the
    initializer exactly when the marker file is missing and --skip-init is
    not given.
   */
  lemma CorrectedAnnouncedMode(turns: seq<Turn>, maxIterations: int, initOnly: bool, skipInit: bool, marker: bool)
    requires 0 < maxIterations <= |turns|
    ensures LaunchCorrected(turns, maxIterations, initOnly, skipInit, marker).run.Some?
    ensures 0 < |LaunchCorrected(turns, maxIterations, initOnly, skipInit, marker).run.value.modes|
    ensures LaunchCorrected(turns, maxIterations, initOnly, skipInit, marker).run.value.modes[0] == Initializer
            <==> !marker && !skipInit
  {
    assert PassedKeywords <= DeclaredParameters + {"skip_init"};
    InitializerUntilFirstSuccess(turns, maxIterations, initOnly, skipInit, marker);
  }

  /**
    Corrected, --skip-init runs only coding sessions, so the loop never
    writes the marker file itself, and --init-only has no effect.
   */
  lemma SkipInitCodesOnly(turns: seq<Turn>, maxIterations: int, initOnly: bool, marker: bool)
    requires maxIterations <= |turns|
    ensures LaunchCorrected(turns, maxIterations, initOnly, true, marker).run.Some?
    ensures forall j | 0 <= j < |LaunchCorrected(turns, maxIterations, initOnly, true, marker).run.value.modes| ::
              LaunchCorrected(turns, maxIterations, initOnly, true, marker).run.value.modes[j] == Coding
    ensures LaunchCorrected(turns, maxIterations, initOnly, true, marker).run.value.marker ==>
              marker || exists k | 0 <= k < |turns| :: turns[k].markerCreated
    ensures LaunchCorrected(turns, maxIterations, initOnly, true, marker) ==
            LaunchCorrected(turns, maxIterations, false, true, marker)
  {
    assert PassedKeywords <= DeclaredParameters + {"skip_init"};
    var r := Loop(turns, maxIterations, initOnly, true, marker);
    InitializerUntilFirstSuccess(turns, maxIterations, initOnly, true, marker);
    MarkerOutcome(turns, maxIterations, initOnly, true, marker);
    if r.marker && !marker {
      var j :| 0 <= j < |r.statuses| && MarkerCause(r, turns, 0, j);
      assert r.modes[j] == Coding;
      assert turns[j].markerCreated;
    }
    InitOnlyIgnoredWhenInitialized(turns, maxIterations, true, marker);
  }
}
