/**
 * The orchestrator: tick the frontend and the backend together, stop on the
 * first error, then look at the app's own queue for a quit request.
 *
 * The two actors are abstract here: each iteration of the main loop is
 * described by what the two ticks returned, which events reached the app's
 * queue during it, and whether the queue reported that every sender had gone.
 * The quit outcomes are parameters too. A run is finite: when the script
 * of iterations runs out the model stops with `ScriptExhausted`.
 */
module App {
  import opened Options
  import opened Events

  /** What one iteration of the main loop sees. */
  datatype Iteration = Iteration(
    frontend: Outcome<string>,
    backend: Outcome<string>,
    arrivals: seq<Event>,
    disconnected: bool)

  /** The calls the orchestrator makes on the two actors, in order. */
  datatype Call = TickFrontend | TickBackend | QuitFrontend | QuitBackend

  datatype Exit = Finished(outcome: Outcome<string>) | ScriptExhausted

  /** Quitting: the frontend first; the backend only if the frontend quit cleanly. */
  function QuitBoth(frontendQuit: Outcome<string>, backendQuit: Outcome<string>): (r: (Exit, seq<Call>))
    ensures frontendQuit.Fail? ==> r == (Finished(frontendQuit), [QuitFrontend])
    ensures frontendQuit.Pass? ==> r == (Finished(backendQuit), [QuitFrontend, QuitBackend])
  {
    if frontendQuit.Fail? then (Finished(frontendQuit), [QuitFrontend])
    else (Finished(backendQuit), [QuitFrontend, QuitBackend])
  }

  /** `run_until_exit` from a given iteration on: how it ends and the calls it makes. */
  function Run(script: seq<Iteration>, frontendQuit: Outcome<string>, backendQuit: Outcome<string>): (Exit, seq<Call>)
    decreases |script|
  {
    if script == [] then (ScriptExhausted, [])
    else
      var it := script[0];
      var ticks := [TickFrontend, TickBackend];
      if it.frontend.Fail? then (Finished(it.frontend), ticks)
      else if it.backend.Fail? then (Finished(it.backend), ticks)
      else if Quit in it.arrivals then
        var q := QuitBoth(frontendQuit, backendQuit);
        (q.0, ticks + q.1)
      else if it.disconnected then (Finished(Pass), ticks)
      else
        var rest := Run(script[1..], frontendQuit, backendQuit);
        (rest.0, ticks + rest.1)
  }

  /** Both ticks run every iteration; when both fail, the frontend's error is the one returned. */
  lemma FrontendErrorWins(script: seq<Iteration>, frontendQuit: Outcome<string>, backendQuit: Outcome<string>)
    requires script != [] && script[0].frontend.Fail? && script[0].backend.Fail?
    ensures Run(script, frontendQuit, backendQuit) == (Finished(script[0].frontend), [TickFrontend, TickBackend])
  {
  }

  /** A run uses up the whole script exactly when every tick succeeds and no quit or disconnection comes. */
  lemma {:induction false} ExhaustedIffUneventful(script: seq<Iteration>, frontendQuit: Outcome<string>, backendQuit: Outcome<string>)
    ensures Run(script, frontendQuit, backendQuit).0 == ScriptExhausted <==>
            forall i :: 0 <= i < |script| ==>
              && script[i].frontend.Pass? && script[i].backend.Pass?
              && Quit !in script[i].arrivals && !script[i].disconnected
    ensures Run(script, frontendQuit, backendQuit).0 == ScriptExhausted ==>
            |Run(script, frontendQuit, backendQuit).1| == 2 * |script|
    decreases |script|
  {
    if script != [] {
      ExhaustedIffUneventful(script[1..], frontendQuit, backendQuit);
      forall i | 1 <= i < |script|
        ensures script[1..][i - 1] == script[i]
      {
      }
    }
  }

  /**
   * The quit calls come last, frontend before backend, and the backend is
   * asked to quit only after the frontend quit cleanly; the run's outcome is
   * then the last quit's.
   */
  lemma {:induction false} QuitsComeLastInOrder(script: seq<Iteration>, frontendQuit: Outcome<string>, backendQuit: Outcome<string>)
    ensures var (e, log) := Run(script, frontendQuit, backendQuit);
      && (QuitBackend in log ==>
            && |log| >= 2 && log[|log| - 2] == QuitFrontend && log[|log| - 1] == QuitBackend
            && frontendQuit.Pass? && e == Finished(backendQuit))
      && (QuitFrontend in log && QuitBackend !in log ==>
            && log[|log| - 1] == QuitFrontend && frontendQuit.Fail? && e == Finished(frontendQuit))
      && (QuitFrontend !in log ==> QuitBackend !in log)
    decreases |script|
  {
    if script != [] {
      QuitsComeLastInOrder(script[1..], frontendQuit, backendQuit);
    }
  }

  /** Without a Quit event on the app's queue the actors are never asked to quit. */
  lemma {:induction false} NoQuitEventNoQuitCalls(script: seq<Iteration>, frontendQuit: Outcome<string>, backendQuit: Outcome<string>)
    requires forall i :: 0 <= i < |script| ==> Quit !in script[i].arrivals
    ensures QuitFrontend !in Run(script, frontendQuit, backendQuit).1
    ensures QuitBackend !in Run(script, frontendQuit, backendQuit).1
    decreases |script|
  {
    if script != [] {
      assert forall i :: 1 <= i < |script| ==> script[1..][i - 1] == script[i];
      NoQuitEventNoQuitCalls(script[1..], frontendQuit, backendQuit);
    }
  }

  /** Events other than Quit on the app's queue are discarded: only whether a Quit came matters. */
  lemma {:induction false} OnlyQuitMatters(s: seq<Iteration>, t: seq<Iteration>, frontendQuit: Outcome<string>, backendQuit: Outcome<string>)
    requires |s| == |t|
    requires forall i :: 0 <= i < |s| ==>
      && s[i].frontend == t[i].frontend && s[i].backend == t[i].backend
      && s[i].disconnected == t[i].disconnected
      && (Quit in s[i].arrivals <==> Quit in t[i].arrivals)
    ensures Run(s, frontendQuit, backendQuit) == Run(t, frontendQuit, backendQuit)
    decreases |s|
  {
    if s != [] {
      assert forall i :: 1 <= i < |s| ==> s[1..][i - 1] == s[i] && t[1..][i - 1] == t[i];
      OnlyQuitMatters(s[1..], t[1..], frontendQuit, backendQuit);
    }
  }

  /** The app-event loop: read the app's queue until it is empty or a quit arrives. */
  method QuitArrived(arrivals: seq<Event>) returns (quit: bool)
    ensures quit <==> Quit in arrivals
  {
    var j := 0;
    while j < |arrivals|
      invariant 0 <= j <= |arrivals|
      invariant Quit !in arrivals[..j]
    {
      if arrivals[j] == Quit {
        return true;
      }
      assert arrivals[..j + 1] == arrivals[..j] + [arrivals[j]];
      j := j + 1;
    }
    assert arrivals[..j] == arrivals;
    return false;
  }

  /** One iteration of the main loop, as `Run` takes it from position `i`. */
  lemma RunFrom(script: seq<Iteration>, i: nat, frontendQuit: Outcome<string>, backendQuit: Outcome<string>)
    requires i < |script|
    ensures var it, r := script[i], Run(script[i..], frontendQuit, backendQuit);
      var ticks := [TickFrontend, TickBackend];
      && (it.frontend.Fail? ==> r == (Finished(it.frontend), ticks))
      && (it.frontend.Pass? && it.backend.Fail? ==> r == (Finished(it.backend), ticks))
      && (it.frontend.Pass? && it.backend.Pass? && Quit in it.arrivals && frontendQuit.Fail? ==>
            r == (Finished(frontendQuit), ticks + [QuitFrontend]))
      && (it.frontend.Pass? && it.backend.Pass? && Quit in it.arrivals && frontendQuit.Pass? ==>
            r == (Finished(backendQuit), ticks + [QuitFrontend, QuitBackend]))
      && (it.frontend.Pass? && it.backend.Pass? && Quit !in it.arrivals && it.disconnected ==>
            r == (Finished(Pass), ticks))
      && (it.frontend.Pass? && it.backend.Pass? && Quit !in it.arrivals && !it.disconnected ==>
            r.0 == Run(script[i + 1..], frontendQuit, backendQuit).0 &&
            r.1 == ticks + Run(script[i + 1..], frontendQuit, backendQuit).1)
  {
    assert script[i..][0] == script[i] && script[i..][1..] == script[i + 1..];
  }

  /**
   * One iteration of the main loop: tick both actors, then read the app's
   * queue. `stop` says whether the loop ends here, with `exit`; `calls` are
   * the calls made on the actors in this iteration.
   */
  method Iterate(script: seq<Iteration>, i: nat, frontendQuit: Outcome<string>, backendQuit: Outcome<string>)
    returns (stop: bool, exit: Exit, calls: seq<Call>)
    requires i < |script|
    ensures stop ==> exit == Run(script[i..], frontendQuit, backendQuit).0
    ensures stop ==> calls == Run(script[i..], frontendQuit, backendQuit).1
    ensures !stop ==> calls == [TickFrontend, TickBackend]
    ensures !stop ==> Run(script[i..], frontendQuit, backendQuit).0 == Run(script[i + 1..], frontendQuit, backendQuit).0
    ensures !stop ==> Run(script[i..], frontendQuit, backendQuit).1 == calls + Run(script[i + 1..], frontendQuit, backendQuit).1
  {
    var it := script[i];
    RunFrom(script, i, frontendQuit, backendQuit);
    calls := [TickFrontend, TickBackend];
    exit := ScriptExhausted;
    stop := true;
    if it.frontend.Fail? {
      return true, Finished(it.frontend), calls;
    }
    if it.backend.Fail? {
      return true, Finished(it.backend), calls;
    }
    var quit := QuitArrived(it.arrivals);
    if quit {
      calls := calls + [QuitFrontend];
      if frontendQuit.Fail? {
        return true, Finished(frontendQuit), calls;
      }
      calls := calls + [QuitBackend];
      assert calls == [TickFrontend, TickBackend] + [QuitFrontend, QuitBackend];
      return true, Finished(backendQuit), calls;
    }
    if it.disconnected {
      return true, Finished(Pass), calls;
    }
    stop := false;
  }

  /** `App::run_until_exit`, with the main loop and the app-event loop. */
  method RunUntilExit(script: seq<Iteration>, frontendQuit: Outcome<string>, backendQuit: Outcome<string>)
    returns (exit: Exit, log: seq<Call>)
    ensures exit == Run(script, frontendQuit, backendQuit).0
    ensures log == Run(script, frontendQuit, backendQuit).1
  {
    ghost var total := Run(script, frontendQuit, backendQuit);
    log := [];
    var i := 0;
    while i < |script|
      invariant 0 <= i <= |script|
      invariant total.0 == Run(script[i..], frontendQuit, backendQuit).0
      invariant total.1 == log + Run(script[i..], frontendQuit, backendQuit).1
    {
      var stop, e, calls := Iterate(script, i, frontendQuit, backendQuit);
      ghost var before := log;
      log := log + calls;
      if stop {
        return e, log;
      }
      assert total.1 == log + Run(script[i + 1..], frontendQuit, backendQuit).1 by {
        assert before + (calls + Run(script[i + 1..], frontendQuit, backendQuit).1)
            == before + calls + Run(script[i + 1..], frontendQuit, backendQuit).1;
      }
      i := i + 1;
    }
    assert script[i..] == [];
    assert log + [] == log;
    exit := ScriptExhausted;
  }
}
