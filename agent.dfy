/**
  The session layer of agent/agent.py: one session folds the stream of
  messages the SDK sends back into a status and a response
  (run_agent_session), and the autonomous loop runs sessions one after
  another, choosing the initializer or the coding prompt from the marker
  file and writing that file after the first successful initializer
  session (run_autonomous_agent).

  The SDK is not modelled: a session is given as the stream it would
  produce, and the loop receives one `Turn` per session it may run.
 */
module Agent {
  import opened Wrappers

  // ---------------------------------------------------------------------
  // Messages of a session
  // ---------------------------------------------------------------------

  /** A content block of an assistant message. */
  datatype Block = Text(text: string) | ToolUse(name: string) | ToolResult(content: string)

  /**
    A message of the response stream. `error` is the result message's
    error attribute; None stands for a missing or None attribute.
   */
  datatype Message = Assistant(content: seq<Block>) | Result(error: Option<string>)

  /**
    How the stream ends after its messages: normally, by a
    KeyboardInterrupt, or by another exception with the given text.
   */
  datatype Ending = Finished | Interrupt | Raised(error: string)

  datatype Stream = Stream(messages: seq<Message>, ending: Ending)

  datatype Status = Success | Error | Interrupted

  /** The (status, response_text) pair run_agent_session returns. */
  datatype SessionResult = SessionResult(status: Status, response: string)

  /** "".join(parts). */
  function Concat(parts: seq<string>): string {
    if |parts| == 0 then "" else Concat(parts[..|parts| - 1]) + parts[|parts| - 1]
  }

  /** The text the blocks contribute to the response: that of text blocks only. */
  function TextOf(blocks: seq<Block>): string {
    if |blocks| == 0 then ""
    else TextOf(blocks[..|blocks| - 1]) + (if blocks[|blocks| - 1].Text? then blocks[|blocks| - 1].text else "")
  }

  /** The text of every assistant message, in order. */
  function ResponseText(messages: seq<Message>): string {
    if |messages| == 0 then ""
    else
      var last := messages[|messages| - 1];
      ResponseText(messages[..|messages| - 1]) + (if last.Assistant? then TextOf(last.content) else "")
  }

  /** A result message reports an error when its error attribute is a non-empty string. */
  predicate ReportsError(m: Message) {
    m.Result? && m.error.Some? && m.error.value != ""
  }

  /** No result message reports an error. */
  predicate NoErrorReported(messages: seq<Message>) {
    forall k | 0 <= k < |messages| :: !ReportsError(messages[k])
  }

  /** The error of the first result message that reports one. */
  function FirstError(messages: seq<Message>): (r: Option<string>)
    ensures r.None? <==> NoErrorReported(messages)
    ensures r.Some? ==> exists k | 0 <= k < |messages| :: FirstErrorAt(messages, k) && messages[k].error.value == r.value
  {
    if |messages| == 0 then None
    else
      var prefix := messages[..|messages| - 1];
      var last := messages[|messages| - 1];
      assert forall k | 0 <= k < |prefix| :: prefix[k] == messages[k];
      match FirstError(prefix)
      case Some(e) =>
        var k :| 0 <= k < |prefix| && FirstErrorAt(prefix, k) && prefix[k].error.value == e;
        assert FirstErrorAt(prefix, k);
        assert FirstErrorAt(messages, k);
        Some(e)
      case None =>
        if ReportsError(last) then
          assert FirstErrorAt(messages, |messages| - 1);
          Some(last.error.value)
        else None
  }

  /** The message at `k` is the first that reports an error. */
  predicate FirstErrorAt(messages: seq<Message>, k: int) {
    0 <= k < |messages| && ReportsError(messages[k]) && forall j | 0 <= j < k :: !ReportsError(messages[j])
  }

  /**
    What run_agent_session returns for a stream. A session succeeds exactly
    when no result message reports an error and the stream ends normally,
    and then its response is the assistant text; it is interrupted exactly
    when no result reports an error and Ctrl+C ends the stream; otherwise it
    fails, with the error of the first result that reports one, or else
    with the text of the exception that ended the stream.
   */
  function SessionOutcome(s: Stream): (o: SessionResult)
    ensures o.status == SessionStatus(s)
    ensures o.status == Success <==>
              NoErrorReported(s.messages) && s.ending == Finished
    ensures o.status == Success ==> o.response == ResponseText(s.messages)
    ensures o.status == Interrupted <==>
              NoErrorReported(s.messages) && s.ending == Interrupt
    ensures o.status == Interrupted ==> o.response == "User interrupted"
    ensures NoErrorReported(s.messages) && s.ending.Raised? ==> o == SessionResult(Error, s.ending.error)
    ensures !NoErrorReported(s.messages) ==>
              o.status == Error && exists k | 0 <= k < |s.messages| :: FirstErrorAt(s.messages, k) && o.response == s.messages[k].error.value
  {
    match FirstError(s.messages)
    case Some(e) => SessionResult(Error, e)
    case None =>
      match s.ending
      case Finished => SessionResult(Success, ResponseText(s.messages))
      case Interrupt => SessionResult(Interrupted, "User interrupted")
      case Raised(e) => SessionResult(Error, e)
  }

  /**
    The status of a session alone: an error when a result reports one,
    and otherwise the one the ending gives.
   */
  function SessionStatus(s: Stream): Status {
    if !NoErrorReported(s.messages) then Error
    else
      match s.ending
      case Finished => Success
      case Interrupt => Interrupted
      case Raised(_) => Error
  }

  lemma ConcatAppend(parts: seq<string>, p: string)
    ensures Concat(parts + [p]) == Concat(parts) + p
  {
    assert (parts + [p])[..|parts|] == parts;
  }

  /**
    run_agent_session: walk the messages, collect the text of text blocks,
    and stop at the first result message that reports an error.
   */
  method RunAgentSession(s: Stream) returns (r: SessionResult)
    ensures r == SessionOutcome(s)
  {
    var fullResponse: seq<string> := [];
    var i := 0;
    while i < |s.messages|
      invariant 0 <= i <= |s.messages|
      invariant forall k | 0 <= k < i :: !ReportsError(s.messages[k])
      invariant Concat(fullResponse) == ResponseText(s.messages[..i])
    {
      var message := s.messages[i];
      ResponseStep(s.messages, i);
      match message {
      case Assistant(content) =>
        fullResponse := CollectText(fullResponse, content);
      case Result(error) =>
        if error.Some? && error.value != "" {
          FirstErrorIs(s.messages, i);
          return SessionResult(Error, error.value);
        }
      }
      i := i + 1;
    }
    assert s.messages[..i] == s.messages;
    match s.ending
    case Finished => r := SessionResult(Success, Concat(fullResponse));
    case Interrupt => r := SessionResult(Interrupted, "User interrupted");
    case Raised(e) => r := SessionResult(Error, e);
  }

  /** One more message: how the response text grows. */
  lemma ResponseStep(messages: seq<Message>, i: int)
    requires 0 <= i < |messages|
    ensures ResponseText(messages[..i + 1]) ==
              ResponseText(messages[..i]) + (if messages[i].Assistant? then TextOf(messages[i].content) else "")
  {
    assert messages[..i + 1][..i] == messages[..i];
  }

  /** The first message that reports an error gives the error of the whole stream. */
  lemma FirstErrorIs(messages: seq<Message>, i: int)
    requires 0 <= i < |messages| && ReportsError(messages[i])
    requires forall k | 0 <= k < i :: !ReportsError(messages[k])
    ensures FirstError(messages) == Some(messages[i].error.value)
  {
    var prefix := messages[..i + 1];
    assert prefix[..i] == messages[..i];
    assert forall k | 0 <= k < i :: messages[..i][k] == messages[k];
    assert FirstError(messages[..i]).None?;
    FirstErrorPrefix(messages, i + 1);
  }

  /** The loop over an assistant message's blocks: the text of each text block is appended. */
  method CollectText(fullResponse: seq<string>, content: seq<Block>) returns (parts: seq<string>)
    ensures Concat(parts) == Concat(fullResponse) + TextOf(content)
  {
    parts := fullResponse;
    var j := 0;
    while j < |content|
      invariant 0 <= j <= |content|
      invariant Concat(parts) == Concat(fullResponse) + TextOf(content[..j])
    {
      CollectStep(parts, Concat(fullResponse), content, j);
      if content[j].Text? {
        parts := parts + [content[j].text];
      }
      j := j + 1;
    }
    assert content[..j] == content;
  }

  /** Collecting one more block keeps the collected text equal to that of the blocks seen. */
  lemma CollectStep(parts: seq<string>, before: string, blocks: seq<Block>, j: int)
    requires 0 <= j < |blocks| && Concat(parts) == before + TextOf(blocks[..j])
    ensures blocks[j].Text? ==> Concat(parts + [blocks[j].text]) == before + TextOf(blocks[..j + 1])
    ensures !blocks[j].Text? ==> Concat(parts) == before + TextOf(blocks[..j + 1])
  {
    BlocksStep(blocks, j);
    if blocks[j].Text? {
      ConcatAppend(parts, blocks[j].text);
      assert before + TextOf(blocks[..j]) + blocks[j].text == before + (TextOf(blocks[..j]) + blocks[j].text);
    } else {
      assert TextOf(blocks[..j]) + "" == TextOf(blocks[..j]);
    }
  }

  /** One more block: how the text grows. */
  lemma BlocksStep(blocks: seq<Block>, j: int)
    requires 0 <= j < |blocks|
    ensures TextOf(blocks[..j + 1]) == TextOf(blocks[..j]) + (if blocks[j].Text? then blocks[j].text else "")
  {
    assert blocks[..j + 1][..j] == blocks[..j];
  }

  /** An error found in a prefix is the error of the whole stream. */
  lemma {:induction false} FirstErrorPrefix(messages: seq<Message>, n: int)
    requires 0 <= n <= |messages| && FirstError(messages[..n]).Some?
    ensures FirstError(messages) == FirstError(messages[..n])
    decreases |messages| - n
  {
    if n < |messages| {
      assert messages[..n + 1][..n] == messages[..n];
      FirstErrorPrefix(messages, n + 1);
    } else {
      assert messages[..n] == messages;
    }
  }

  // ---------------------------------------------------------------------
  // Properties of a session
  // ---------------------------------------------------------------------

  /** The response text is a homomorphism of block sequences. */
  lemma {:induction false} TextOfAppend(a: seq<Block>, b: seq<Block>)
    ensures TextOf(a + b) == TextOf(a) + TextOf(b)
    decreases |b|
  {
    if |b| == 0 {
      assert a + b == a;
    } else {
      assert (a + b)[..|a + b| - 1] == a + b[..|b| - 1];
      TextOfAppend(a, b[..|b| - 1]);
    }
  }

  /** Tool-use and tool-result blocks add nothing to the response, wherever they stand. */
  lemma ToolBlocksAddNothing(a: seq<Block>, tool: Block, b: seq<Block>)
    requires !tool.Text?
    ensures TextOf(a + [tool] + b) == TextOf(a + b)
  {
    TextOfAppend(a + [tool], b);
    TextOfAppend(a, [tool]);
    TextOfAppend(a, b);
    assert [tool][..0] == [];
  }

  /** Text blocks contribute their text in order. */
  lemma TextBlocksInOrder(a: seq<Block>, t: string, b: seq<Block>)
    ensures TextOf(a + [Text(t)] + b) == TextOf(a) + t + TextOf(b)
  {
    TextOfAppend(a + [Text(t)], b);
    TextOfAppend(a, [Text(t)]);
    assert [Text(t)][..0] == [];
  }

  /**
    A result message reporting an error decides the session, whatever text
    came before it and however the stream ends afterwards.
   */
  lemma {:induction false} ErrorResultWins(before: seq<Message>, e: string, after: seq<Message>, ending: Ending)
    requires forall k | 0 <= k < |before| :: !ReportsError(before[k])
    requires e != ""
    ensures SessionOutcome(Stream(before + [Result(Some(e))] + after, ending)) == SessionResult(Error, e)
  {
    var ms := before + [Result(Some(e))] + after;
    assert ms[..|before| + 1] == before + [Result(Some(e))];
    assert (before + [Result(Some(e))])[..|before|] == before;
    FirstErrorPrefix(ms, |before| + 1);
  }

  // ---------------------------------------------------------------------
  // The tool-result preview
  // ---------------------------------------------------------------------

  /**
    The abbreviated tool result: it keeps the first 100 characters and
    marks a cut with "..." exactly when it cuts.
   */
  function ResultPreview(content: string): (p: string)
    ensures |p| <= 103
    ensures |content| <= 100 ==> p == content
    ensures |content| > 100 ==> |p| == 103 && p[..100] == content[..100] && p[100..] == "..."
  {
    if |content| > 100 then content[..100] + "..." else content
  }

  // ---------------------------------------------------------------------
  // The marker file
  // ---------------------------------------------------------------------

  /** The project directory, reduced to whether its marker file exists. */
  class Project {
    var marker: bool

    constructor(initialized: bool)
      ensures marker == initialized
      ensures IsLinearInitialized() == initialized
    {
      marker := initialized;
    }

    /** is_linear_initialized: whether the marker file exists. */
    function IsLinearInitialized(): bool
      reads this
    {
      marker
    }

    /** mark_linear_initialized: create the marker file. */
    method MarkLinearInitialized()
      modifies this
      ensures marker
      ensures IsLinearInitialized()
    {
      marker := true;
    }
  }

  // ---------------------------------------------------------------------
  // The autonomous loop
  // ---------------------------------------------------------------------

  datatype Mode = Initializer | Coding

  /** How the loop ends: by leaving it, or by a KeyboardInterrupt escaping it. */
  datatype LoopEnd = Completed | Escaped

  /**
    What the environment does during one pass of the loop: the stream the
    session produces, whether the session's own tools created the marker
    file, and whether Ctrl+C arrives during the sleep that follows.
   */
  datatype Turn = Turn(stream: Stream, markerCreated: bool, interruptedInSleep: bool)

  /**
    The record of a run: the sessions started (the final `iteration`),
    their modes and statuses, the marker file at the end, and how it ended.
   */
  datatype Run = Run(iterations: int, modes: seq<Mode>, statuses: seq<Status>, marker: bool, end: LoopEnd)

  /** What one pass of the loop does after its session: stop, or go on in the given mode. */
  datatype Next = Stop(end: LoopEnd) | Go(firstRun: bool)

  /** The status of every session the turns would run. */
  function Outcomes(turns: seq<Turn>): (r: seq<Status>)
    ensures |r| == |turns|
    ensures forall k | 0 <= k < |turns| :: r[k] == SessionStatus(turns[k].stream)
  {
    seq(|turns|, k requires 0 <= k < |turns| => SessionStatus(turns[k].stream))
  }

  function ModeOf(firstRun: bool): Mode {
    if firstRun then Initializer else Coding
  }

  /**
    One pass after a session that ended with `status`: an interrupted
    session breaks out; an error sleeps and continues in the same mode, a
    Ctrl+C in that sleep escaping the loop; a success leaves first-run
    mode, stops there under init_only, and otherwise sleeps, a Ctrl+C in
    that sleep breaking out.
   */
  function Step(t: Turn, status: Status, firstRun: bool, initOnly: bool): (r: Next)
    ensures r.Stop? <==> status == Interrupted || t.interruptedInSleep || (status == Success && firstRun && initOnly)
    ensures r.Stop? ==> (r.end == Escaped <==> status == Error)
    ensures r.Go? ==> r.firstRun == (firstRun && status == Error)
  {
    match status
    case Interrupted => Stop(Completed)
    case Error => if t.interruptedInSleep then Stop(Escaped) else Go(firstRun)
    case Success =>
      if firstRun && initOnly then Stop(Completed)
      else if t.interruptedInSleep then Stop(Completed)
      else Go(false)
  }

  /**
    The marker file after a pass: created by the session's tools, or
    written after a successful session in first-run mode.
   */
  function MarkerAfter(t: Turn, status: Status, firstRun: bool, marker: bool): (r: bool)
    ensures marker ==> r
    ensures firstRun && status == Success ==> r
    ensures r && !marker ==> t.markerCreated || (firstRun && status == Success)
  {
    marker || t.markerCreated || (firstRun && status == Success)
  }

  /** A run with one more session recorded in front. */
  function Prepend(mode: Mode, status: Status, r: Run): Run {
    r.(modes := [mode] + r.modes, statuses := [status] + r.statuses)
  }

  /**
    The loop from its head, with `i` sessions started, `firstRun` the mode
    flag and `marker` the marker file; `outcomes[k]` is the status of
    session k + 1. The result records the final iteration count, the
    marker file at the end, how the loop ended, and the modes and statuses
    of the sessions started from here on. (Running out of turns also ends
    it; a run from the start never does, see Loop.)
   */
  function LoopFrom(turns: seq<Turn>, outcomes: seq<Status>, maxIterations: int, initOnly: bool,
                    i: nat, firstRun: bool, marker: bool): (r: Run)
    ensures |r.modes| == |r.statuses| == r.iterations - i
    decreases maxIterations - i, 1
  {
    if i >= maxIterations || i >= |turns| || i >= |outcomes| then Run(i, [], [], marker, Completed)
    else LoopPass(turns, outcomes, maxIterations, initOnly, i, firstRun, marker)
  }

  /** Session i + 1 of the loop, run from a head state that has one to run, and the passes after it. */
  function LoopPass(turns: seq<Turn>, outcomes: seq<Status>, maxIterations: int, initOnly: bool,
                    i: nat, firstRun: bool, marker: bool): (r: Run)
    requires i < maxIterations && i < |turns| && i < |outcomes|
    ensures |r.modes| == |r.statuses| == r.iterations - i
    decreases maxIterations - i, 0
  {
    var t, status := turns[i], outcomes[i];
    var marker' := MarkerAfter(t, status, firstRun, marker);
    match Step(t, status, firstRun, initOnly)
    case Stop(end) => Run(i + 1, [ModeOf(firstRun)], [status], marker', end)
    case Go(firstRun') =>
      Prepend(ModeOf(firstRun), status, LoopFrom(turns, outcomes, maxIterations, initOnly, i + 1, firstRun', marker'))
  }

  /**
    A run from the start. `skipInit` goes straight to coding mode; it is
    the parameter the entry point expects (see Launch), and with it false
    this is run_autonomous_agent as written.
   */
  function Loop(turns: seq<Turn>, maxIterations: int, initOnly: bool, skipInit: bool, marker: bool): (r: Run)
    requires maxIterations <= |turns|
    ensures r.iterations == |r.statuses| == |r.modes|
    ensures maxIterations <= 0 ==> r.iterations == 0
    ensures maxIterations > 0 ==> 1 <= r.iterations <= maxIterations
    ensures StatusesOf(r, Outcomes(turns), 0)
  {
    BoundFrom(turns, Outcomes(turns), maxIterations, initOnly, 0, !marker && !skipInit, marker);
    StatusesFrom(turns, Outcomes(turns), maxIterations, initOnly, 0, !marker && !skipInit, marker);
    if maxIterations > 0 then
      Unfold(turns, Outcomes(turns), maxIterations, initOnly, 0, !marker && !skipInit, marker);
      LoopFrom(turns, Outcomes(turns), maxIterations, initOnly, 0, !marker && !skipInit, marker)
    else
      LoopFrom(turns, Outcomes(turns), maxIterations, initOnly, 0, !marker && !skipInit, marker)
  }

  /** run_autonomous_agent as written starts in first-run mode exactly when the marker file is missing. */
  lemma LoopStarts(turns: seq<Turn>, maxIterations: int, initOnly: bool, marker: bool)
    requires maxIterations <= |turns|
    ensures Loop(turns, maxIterations, initOnly, false, marker) ==
              LoopFrom(turns, Outcomes(turns), maxIterations, initOnly, 0, !marker, marker)
  {
  }

  /** At max_iterations the loop is left normally, with the sessions recorded so far. */
  lemma LoopDone(modes: seq<Mode>, statuses: seq<Status>, turns: seq<Turn>, outcomes: seq<Status>,
                 maxIterations: int, initOnly: bool, i: nat, firstRun: bool, marker: bool)
    requires maxIterations <= i
    ensures After(modes, statuses, LoopFrom(turns, outcomes, maxIterations, initOnly, i, firstRun, marker)) ==
              Run(i, modes, statuses, marker, Completed)
  {
    assert modes + [] == modes && statuses + [] == statuses;
  }

  /** A run whose first sessions are already recorded. */
  function After(modes: seq<Mode>, statuses: seq<Status>, r: Run): Run {
    r.(modes := modes + r.modes, statuses := statuses + r.statuses)
  }

  /** One pass of the loop from a head state that has a session to run. */
  lemma Unfold(turns: seq<Turn>, outcomes: seq<Status>, maxIterations: int, initOnly: bool,
               i: nat, firstRun: bool, marker: bool)
    requires i < maxIterations && i < |turns| && i < |outcomes|
    ensures Step(turns[i], outcomes[i], firstRun, initOnly).Stop? ==>
              LoopFrom(turns, outcomes, maxIterations, initOnly, i, firstRun, marker) ==
                Run(i + 1, [ModeOf(firstRun)], [outcomes[i]], MarkerAfter(turns[i], outcomes[i], firstRun, marker),
                    Step(turns[i], outcomes[i], firstRun, initOnly).end)
    ensures Step(turns[i], outcomes[i], firstRun, initOnly).Go? ==>
              LoopFrom(turns, outcomes, maxIterations, initOnly, i, firstRun, marker) ==
                Prepend(ModeOf(firstRun), outcomes[i],
                        LoopFrom(turns, outcomes, maxIterations, initOnly, i + 1,
                                 Step(turns[i], outcomes[i], firstRun, initOnly).firstRun,
                                 MarkerAfter(turns[i], outcomes[i], firstRun, marker)))
  {
    assert LoopFrom(turns, outcomes, maxIterations, initOnly, i, firstRun, marker) ==
             LoopPass(turns, outcomes, maxIterations, initOnly, i, firstRun, marker);
  }

  /**
    The bookkeeping of the method: after a pass with these results, a
    stopping pass ends the run and a continuing one moves the head.
   */
  lemma AfterPass(modes: seq<Mode>, statuses: seq<Status>, turns: seq<Turn>, outcomes: seq<Status>,
                  maxIterations: int, initOnly: bool, i: nat, firstRun: bool, marker: bool,
                  mode: Mode, status: Status, next: Next, marker': bool, goal: Run)
    requires i < maxIterations && i < |turns| && i < |outcomes|
    requires After(modes, statuses, LoopFrom(turns, outcomes, maxIterations, initOnly, i, firstRun, marker)) == goal
    requires mode == ModeOf(firstRun) && status == outcomes[i] && next == Step(turns[i], status, firstRun, initOnly)
    requires marker' == MarkerAfter(turns[i], status, firstRun, marker)
    ensures next.Stop? ==> Run(i + 1, modes + [mode], statuses + [status], marker', next.end) == goal
    ensures next.Go? ==>
              After(modes + [mode], statuses + [status],
                    LoopFrom(turns, outcomes, maxIterations, initOnly, i + 1, next.firstRun, marker')) == goal
  {
    Unfold(turns, outcomes, maxIterations, initOnly, i, firstRun, marker);
    if next.Go? {
      AfterPrepend(modes, statuses, mode, status,
                   LoopFrom(turns, outcomes, maxIterations, initOnly, i + 1, next.firstRun, marker'));
    }
  }

  lemma AfterPrepend(modes: seq<Mode>, statuses: seq<Status>, mode: Mode, status: Status, r: Run)
    ensures After(modes, statuses, Prepend(mode, status, r)) == After(modes + [mode], statuses + [status], r)
  {
    assert modes + [mode] + r.modes == modes + ([mode] + r.modes);
    assert statuses + [status] + r.statuses == statuses + ([status] + r.statuses);
  }

  /**
    One pass of run_autonomous_agent's loop after the prompt is chosen: run
    the session, then break, continue or go on as its status says, writing
    the marker file after a successful session in first-run mode.
   */
  method Pass(project: Project, turn: Turn, firstRun: bool, initOnly: bool) returns (status: Status, next: Next)
    modifies project
    ensures status == SessionStatus(turn.stream)
    ensures next == Step(turn, status, firstRun, initOnly)
    ensures project.marker == MarkerAfter(turn, status, firstRun, old(project.marker))
  {
    var result := RunAgentSession(turn.stream);
    status := result.status;
    if turn.markerCreated {
      // the session's own tools wrote the marker file
      project.marker := true;
    }
    if status == Interrupted {
      return status, Stop(Completed);
    }
    if status == Error {
      if turn.interruptedInSleep {
        return status, Stop(Escaped);
      }
      return status, Go(firstRun);
    }
    if firstRun {
      project.MarkLinearInitialized();
      if initOnly {
        return status, Stop(Completed);
      }
    }
    if turn.interruptedInSleep {
      return status, Stop(Completed);
    }
    next := Go(false);
  }

  /**
    run_autonomous_agent. `turns[k]` is what happens during session k + 1;
    the caller supplies one for every session the loop may start.
   */
  method RunAutonomousAgent(project: Project, turns: seq<Turn>, maxIterations: int, initOnly: bool)
    returns (run: Run)
    requires maxIterations <= |turns|
    modifies project
    ensures run == Loop(turns, maxIterations, initOnly, false, old(project.marker))
    ensures project.marker == run.marker
  {
    var isFirstRun := !project.IsLinearInitialized();
    LoopStarts(turns, maxIterations, initOnly, project.marker);
    run := Sessions(project, turns, maxIterations, initOnly, isFirstRun);
  }

  /** The while loop of run_autonomous_agent, from the first session in the given mode. */
  method Sessions(project: Project, turns: seq<Turn>, maxIterations: int, initOnly: bool, firstRun: bool)
    returns (run: Run)
    requires maxIterations <= |turns|
    modifies project
    ensures run == LoopFrom(turns, Outcomes(turns), maxIterations, initOnly, 0, firstRun, old(project.marker))
    ensures project.marker == run.marker
  {
    ghost var outcomes := Outcomes(turns);
    var iteration := 0;
    var isFirstRun := firstRun;
    ghost var goal := LoopFrom(turns, outcomes, maxIterations, initOnly, 0, isFirstRun, project.marker);
    var modes: seq<Mode> := [];
    var statuses: seq<Status> := [];
    while iteration < maxIterations
      invariant 0 <= iteration
      invariant After(modes, statuses, LoopFrom(turns, outcomes, maxIterations, initOnly, iteration, isFirstRun, project.marker))
                == goal
      decreases maxIterations - iteration
    {
      ghost var marker := project.marker;
      var turn := turns[iteration];
      iteration := iteration + 1;
      var mode := if isFirstRun then Initializer else Coding;
      var status, next := Pass(project, turn, isFirstRun, initOnly);
      AfterPass(modes, statuses, turns, outcomes, maxIterations, initOnly, iteration - 1, isFirstRun, marker,
                mode, status, next, project.marker, goal);
      modes := modes + [mode];
      statuses := statuses + [status];
      match next
      case Stop(end) =>
        return Run(iteration, modes, statuses, project.marker, end);
      case Go(firstRun) =>
        isFirstRun := firstRun;
    }
    LoopDone(modes, statuses, turns, outcomes, maxIterations, initOnly, iteration, isFirstRun, project.marker);
    run := Run(iteration, modes, statuses, project.marker, Completed);
  }

  // ---------------------------------------------------------------------
  // Properties of the loop
  //
  // Each is a predicate on the record of the sessions run from some head
  // state, proved for any session outcomes by induction on the sessions
  // still to run, then stated for a run from the start.
  // ---------------------------------------------------------------------

  /** The loop starts no session past max_iterations. */
  predicate WithinBound(r: Run, i: int, maxIterations: int) {
    r.iterations == i || r.iterations <= maxIterations
  }

  /** Each recorded status is the outcome of that session. */
  predicate StatusesOf(r: Run, outcomes: seq<Status>, i: int) {
    forall j | 0 <= j < |r.statuses| :: 0 <= i + j < |outcomes| && r.statuses[j] == outcomes[i + j]
  }

  /** The sessions are in the initializer mode exactly while first-run mode lasts: until a success. */
  predicate InitializerUntilSuccess(r: Run, firstRun: bool) {
    forall j | 0 <= j < |r.modes| ::
      r.modes[j] == Initializer <==> firstRun && forall k | 0 <= k < j && k < |r.statuses| :: r.statuses[k] != Success
  }

  /** An interrupted session is the last one, and the loop is left normally. */
  predicate InterruptIsLast(r: Run) {
    forall j | 0 <= j < |r.statuses| :: r.statuses[j] == Interrupted ==> j == |r.statuses| - 1 && r.end == Completed
  }

  /** The loop is escaped only through the wait after a failed last session. */
  predicate EscapesAfterError(r: Run, turns: seq<Turn>, i: int) {
    r.end == Escaped ==>
      && 0 <= i < r.iterations <= |turns| && |r.statuses| == r.iterations - i
      && r.statuses[r.iterations - i - 1] == Error && turns[r.iterations - 1].interruptedInSleep
  }

  /**
    After a failed session the loop waits and runs another session in the
    same mode, unless the failed one was the last allowed or Ctrl+C came
    during the wait.
   */
  predicate ErrorRetried(r: Run, turns: seq<Turn>, i: int, maxIterations: int) {
    forall j | 0 <= j < |r.statuses| && 0 <= i + j < |turns| ::
      r.statuses[j] == Error && !turns[i + j].interruptedInSleep && i + j + 1 < maxIterations ==>
        j + 1 < |r.modes| && r.modes[j + 1] == r.modes[j]
  }

  /** The marker file stays, and a successful initializer session leaves it written. */
  predicate MarkerWritten(r: Run, marker: bool) {
    && (marker ==> r.marker)
    && forall j | 0 <= j < |r.statuses| && j < |r.modes| :: r.statuses[j] == Success && r.modes[j] == Initializer ==> r.marker
  }

  /** The marker file appears only through a successful initializer session or a session's own tools. */
  ghost predicate MarkerExplained(r: Run, turns: seq<Turn>, i: int, marker: bool) {
    r.marker ==> marker || exists j | 0 <= j < |r.statuses| :: MarkerCause(r, turns, i, j)
  }

  /** Recorded session j wrote the marker file, through its own tools or as a successful initializer. */
  predicate MarkerCause(r: Run, turns: seq<Turn>, i: int, j: int) {
    && 0 <= j < |r.statuses| && j < |r.modes| && 0 <= i + j < |turns|
    && (turns[i + j].markerCreated || (r.statuses[j] == Success && r.modes[j] == Initializer))
  }

  /** Under init_only a successful initializer session is the last one. */
  predicate StopsAfterInit(r: Run) {
    forall j | 0 <= j < |r.statuses| && j < |r.modes| ::
      r.statuses[j] == Success && r.modes[j] == Initializer ==> j == |r.statuses| - 1 && r.end == Completed
  }

  // Each property carries over from the rest of a run to the run with one
  // more session in front; these lemmas reason about sequences only.

  lemma StatusesPrepend(mode: Mode, status: Status, r: Run, outcomes: seq<Status>, i: int)
    requires 0 <= i < |outcomes| && outcomes[i] == status
    requires StatusesOf(r, outcomes, i + 1)
    ensures StatusesOf(Prepend(mode, status, r), outcomes, i)
  {
    var r' := Prepend(mode, status, r);
    forall j | 0 <= j < |r'.statuses| ensures 0 <= i + j < |outcomes| && r'.statuses[j] == outcomes[i + j] {
      if j > 0 {
        assert r'.statuses[j] == r.statuses[j - 1];
      }
    }
  }

  lemma ModesPrepend(firstRun: bool, status: Status, r: Run)
    requires |r.modes| == |r.statuses|
    requires InitializerUntilSuccess(r, firstRun && status != Success)
    ensures InitializerUntilSuccess(Prepend(ModeOf(firstRun), status, r), firstRun)
  {
    var r' := Prepend(ModeOf(firstRun), status, r);
    forall j | 1 <= j < |r'.modes|
      ensures r'.modes[j] == Initializer <==> firstRun && forall k | 0 <= k < j && k < |r'.statuses| :: r'.statuses[k] != Success
    {
      assert r'.modes[j] == r.modes[j - 1];
      if status != Success && forall k | 0 <= k < j - 1 && k < |r.statuses| :: r.statuses[k] != Success {
        forall k | 1 <= k < j && k < |r'.statuses| ensures r'.statuses[k] != Success {
          assert r'.statuses[k] == r.statuses[k - 1];
        }
      }
      if forall k | 0 <= k < j && k < |r'.statuses| :: r'.statuses[k] != Success {
        assert r'.statuses[0] != Success;
        forall k | 0 <= k < j - 1 && k < |r.statuses| ensures r.statuses[k] != Success {
          assert r'.statuses[k + 1] == r.statuses[k];
        }
      }
    }
  }

  lemma InterruptPrepend(mode: Mode, status: Status, r: Run)
    requires status != Interrupted && InterruptIsLast(r)
    ensures InterruptIsLast(Prepend(mode, status, r))
  {
    var r' := Prepend(mode, status, r);
    forall j | 1 <= j < |r'.statuses| ensures r'.statuses[j] == r.statuses[j - 1] { }
  }

  lemma EscapePrepend(mode: Mode, status: Status, r: Run, turns: seq<Turn>, i: int)
    requires 0 <= i && |r.statuses| == r.iterations - (i + 1)
    requires EscapesAfterError(r, turns, i + 1)
    ensures EscapesAfterError(Prepend(mode, status, r), turns, i)
  {
    var r' := Prepend(mode, status, r);
    if r.end == Escaped {
      assert r'.statuses[r'.iterations - i - 1] == r.statuses[r.iterations - (i + 1) - 1];
    }
  }

  lemma RetryPrepend(mode: Mode, status: Status, r: Run, turns: seq<Turn>, i: int, maxIterations: int)
    requires 0 <= i < |turns| && |r.modes| == |r.statuses|
    requires ErrorRetried(r, turns, i + 1, maxIterations)
    requires status == Error && !turns[i].interruptedInSleep && i + 1 < maxIterations ==> 0 < |r.modes| && r.modes[0] == mode
    ensures ErrorRetried(Prepend(mode, status, r), turns, i, maxIterations)
  {
    var r' := Prepend(mode, status, r);
    forall j | 1 <= j < |r'.statuses| ensures r'.statuses[j] == r.statuses[j - 1] && r'.modes[j] == r.modes[j - 1] { }
  }

  lemma MarkerPrepend(mode: Mode, status: Status, r: Run, marker: bool, marker': bool)
    requires |r.modes| == |r.statuses|
    requires (marker ==> marker') && (status == Success && mode == Initializer ==> marker')
    requires MarkerWritten(r, marker')
    ensures MarkerWritten(Prepend(mode, status, r), marker)
  {
    var r' := Prepend(mode, status, r);
    forall j | 1 <= j < |r'.statuses| ensures r'.statuses[j] == r.statuses[j - 1] && r'.modes[j] == r.modes[j - 1] { }
  }

  lemma MarkerCausePrepend(mode: Mode, status: Status, r: Run, turns: seq<Turn>, i: int, marker: bool, marker': bool)
    requires 0 <= i < |turns| && |r.modes| == |r.statuses|
    requires marker' == (marker || turns[i].markerCreated || (mode == Initializer && status == Success))
    requires MarkerExplained(r, turns, i + 1, marker')
    ensures MarkerExplained(Prepend(mode, status, r), turns, i, marker)
  {
    var r' := Prepend(mode, status, r);
    if r'.marker && !marker {
      if turns[i].markerCreated || (mode == Initializer && status == Success) {
        assert MarkerCause(r', turns, i, 0);
      } else {
        var j :| 0 <= j < |r.statuses| && MarkerCause(r, turns, i + 1, j);
        assert MarkerCause(r, turns, i + 1, j);
        assert r'.statuses[j + 1] == r.statuses[j] && r'.modes[j + 1] == r.modes[j];
        assert MarkerCause(r', turns, i, j + 1);
      }
    }
  }

  lemma InitOnlyPrepend(mode: Mode, status: Status, r: Run)
    requires |r.modes| == |r.statuses|
    requires !(status == Success && mode == Initializer) && StopsAfterInit(r)
    ensures StopsAfterInit(Prepend(mode, status, r))
  {
    var r' := Prepend(mode, status, r);
    forall j | 1 <= j < |r'.statuses| ensures r'.statuses[j] == r.statuses[j - 1] && r'.modes[j] == r.modes[j - 1] { }
  }

  lemma {:induction false} BoundFrom(turns: seq<Turn>, outcomes: seq<Status>, maxIterations: int, initOnly: bool,
                                     i: nat, firstRun: bool, marker: bool)
    ensures WithinBound(LoopFrom(turns, outcomes, maxIterations, initOnly, i, firstRun, marker), i, maxIterations)
    decreases maxIterations - i
  {
    if i < maxIterations && i < |turns| && i < |outcomes| {
      Unfold(turns, outcomes, maxIterations, initOnly, i, firstRun, marker);
      var next := Step(turns[i], outcomes[i], firstRun, initOnly);
      if next.Go? {
        BoundFrom(turns, outcomes, maxIterations, initOnly, i + 1, next.firstRun, MarkerAfter(turns[i], outcomes[i], firstRun, marker));
      }
    }
  }

  lemma {:induction false} StatusesFrom(turns: seq<Turn>, outcomes: seq<Status>, maxIterations: int, initOnly: bool,
                                        i: nat, firstRun: bool, marker: bool)
    ensures StatusesOf(LoopFrom(turns, outcomes, maxIterations, initOnly, i, firstRun, marker), outcomes, i)
    decreases maxIterations - i
  {
    if i < maxIterations && i < |turns| && i < |outcomes| {
      Unfold(turns, outcomes, maxIterations, initOnly, i, firstRun, marker);
      var next := Step(turns[i], outcomes[i], firstRun, initOnly);
      if next.Go? {
        var marker' := MarkerAfter(turns[i], outcomes[i], firstRun, marker);
        StatusesFrom(turns, outcomes, maxIterations, initOnly, i + 1, next.firstRun, marker');
        StatusesPrepend(ModeOf(firstRun), outcomes[i],
                        LoopFrom(turns, outcomes, maxIterations, initOnly, i + 1, next.firstRun, marker'), outcomes, i);
      }
    }
  }

  lemma {:induction false} ModesFrom(turns: seq<Turn>, outcomes: seq<Status>, maxIterations: int, initOnly: bool,
                                     i: nat, firstRun: bool, marker: bool)
    ensures InitializerUntilSuccess(LoopFrom(turns, outcomes, maxIterations, initOnly, i, firstRun, marker), firstRun)
    decreases maxIterations - i
  {
    if i < maxIterations && i < |turns| && i < |outcomes| {
      Unfold(turns, outcomes, maxIterations, initOnly, i, firstRun, marker);
      var next := Step(turns[i], outcomes[i], firstRun, initOnly);
      if next.Go? {
        var marker' := MarkerAfter(turns[i], outcomes[i], firstRun, marker);
        assert next.firstRun == (firstRun && outcomes[i] != Success);
        ModesFrom(turns, outcomes, maxIterations, initOnly, i + 1, next.firstRun, marker');
        ModesPrepend(firstRun, outcomes[i], LoopFrom(turns, outcomes, maxIterations, initOnly, i + 1, next.firstRun, marker'));
      }
    }
  }

  /**
    The initializer prompt is used exactly up to the first successful
    session, and only when the marker file was missing at the start (and
    coding mode was not forced). The marker is read once, so a marker file
    created by a session's own tools does not change the mode.
   */
  lemma InitializerUntilFirstSuccess(turns: seq<Turn>, maxIterations: int, initOnly: bool, skipInit: bool, marker: bool)
    requires maxIterations <= |turns|
    ensures InitializerUntilSuccess(Loop(turns, maxIterations, initOnly, skipInit, marker), !marker && !skipInit)
  {
    ModesFrom(turns, Outcomes(turns), maxIterations, initOnly, 0, !marker && !skipInit, marker);
  }

  /** When the marker file exists at the start, every session uses the coding prompt. */
  lemma MarkerMeansCoding(turns: seq<Turn>, maxIterations: int, initOnly: bool, skipInit: bool, j: int)
    requires maxIterations <= |turns|
    requires 0 <= j < |Loop(turns, maxIterations, initOnly, skipInit, true).modes|
    ensures Loop(turns, maxIterations, initOnly, skipInit, true).modes[j] == Coding
  {
    InitializerUntilFirstSuccess(turns, maxIterations, initOnly, skipInit, true);
  }

  lemma {:induction false} InterruptFrom(turns: seq<Turn>, outcomes: seq<Status>, maxIterations: int, initOnly: bool,
                                         i: nat, firstRun: bool, marker: bool)
    ensures InterruptIsLast(LoopFrom(turns, outcomes, maxIterations, initOnly, i, firstRun, marker))
    decreases maxIterations - i
  {
    if i < maxIterations && i < |turns| && i < |outcomes| {
      Unfold(turns, outcomes, maxIterations, initOnly, i, firstRun, marker);
      var next := Step(turns[i], outcomes[i], firstRun, initOnly);
      if next.Go? {
        var marker' := MarkerAfter(turns[i], outcomes[i], firstRun, marker);
        InterruptFrom(turns, outcomes, maxIterations, initOnly, i + 1, next.firstRun, marker');
        InterruptPrepend(ModeOf(firstRun), outcomes[i], LoopFrom(turns, outcomes, maxIterations, initOnly, i + 1, next.firstRun, marker'));
      }
    }
  }

  /** An interrupted session is the last one, and the loop is left normally rather than escaped. */
  lemma InterruptEnds(turns: seq<Turn>, maxIterations: int, initOnly: bool, skipInit: bool, marker: bool)
    requires maxIterations <= |turns|
    ensures InterruptIsLast(Loop(turns, maxIterations, initOnly, skipInit, marker))
  {
    InterruptFrom(turns, Outcomes(turns), maxIterations, initOnly, 0, !marker && !skipInit, marker);
  }

  lemma {:induction false} EscapeFrom(turns: seq<Turn>, outcomes: seq<Status>, maxIterations: int, initOnly: bool,
                                      i: nat, firstRun: bool, marker: bool)
    ensures EscapesAfterError(LoopFrom(turns, outcomes, maxIterations, initOnly, i, firstRun, marker), turns, i)
    decreases maxIterations - i
  {
    if i < maxIterations && i < |turns| && i < |outcomes| {
      Unfold(turns, outcomes, maxIterations, initOnly, i, firstRun, marker);
      var next := Step(turns[i], outcomes[i], firstRun, initOnly);
      if next.Go? {
        var marker' := MarkerAfter(turns[i], outcomes[i], firstRun, marker);
        EscapeFrom(turns, outcomes, maxIterations, initOnly, i + 1, next.firstRun, marker');
        EscapePrepend(ModeOf(firstRun), outcomes[i], LoopFrom(turns, outcomes, maxIterations, initOnly, i + 1, next.firstRun, marker'), turns, i);
      }
    }
  }

  /** The loop is escaped only by a Ctrl+C during the wait after a failed session, which is then the last one. */
  lemma EscapeOnlyAfterError(turns: seq<Turn>, maxIterations: int, initOnly: bool, skipInit: bool, marker: bool)
    requires maxIterations <= |turns|
    ensures EscapesAfterError(Loop(turns, maxIterations, initOnly, skipInit, marker), turns, 0)
  {
    EscapeFrom(turns, Outcomes(turns), maxIterations, initOnly, 0, !marker && !skipInit, marker);
  }

  /** The first session recorded from a head state that has one to run. */
  lemma FirstSession(turns: seq<Turn>, outcomes: seq<Status>, maxIterations: int, initOnly: bool,
                     i: nat, firstRun: bool, marker: bool)
    requires i < maxIterations && i < |turns| && i < |outcomes|
    ensures 0 < |LoopFrom(turns, outcomes, maxIterations, initOnly, i, firstRun, marker).modes|
    ensures LoopFrom(turns, outcomes, maxIterations, initOnly, i, firstRun, marker).modes[0] == ModeOf(firstRun)
  {
  }

  lemma {:induction false} RetryFrom(turns: seq<Turn>, outcomes: seq<Status>, maxIterations: int, initOnly: bool,
                                     i: nat, firstRun: bool, marker: bool)
    requires maxIterations <= |turns| == |outcomes|
    ensures ErrorRetried(LoopFrom(turns, outcomes, maxIterations, initOnly, i, firstRun, marker), turns, i, maxIterations)
    decreases maxIterations - i
  {
    if i < maxIterations && i < |turns| {
      Unfold(turns, outcomes, maxIterations, initOnly, i, firstRun, marker);
      var next := Step(turns[i], outcomes[i], firstRun, initOnly);
      if next.Go? {
        var marker' := MarkerAfter(turns[i], outcomes[i], firstRun, marker);
        RetryFrom(turns, outcomes, maxIterations, initOnly, i + 1, next.firstRun, marker');
        if outcomes[i] == Error && i + 1 < maxIterations {
          FirstSession(turns, outcomes, maxIterations, initOnly, i + 1, next.firstRun, marker');
        }
        RetryPrepend(ModeOf(firstRun), outcomes[i], LoopFrom(turns, outcomes, maxIterations, initOnly, i + 1, next.firstRun, marker'),
                     turns, i, maxIterations);
      }
    }
  }

  /**
    A failed session is followed by another in the same mode, unless it
    was the last allowed or Ctrl+C came during the wait; the failed
    session still counts towards max_iterations.
   */
  lemma ErrorRetries(turns: seq<Turn>, maxIterations: int, initOnly: bool, skipInit: bool, marker: bool)
    requires maxIterations <= |turns|
    ensures ErrorRetried(Loop(turns, maxIterations, initOnly, skipInit, marker), turns, 0, maxIterations)
  {
    RetryFrom(turns, Outcomes(turns), maxIterations, initOnly, 0, !marker && !skipInit, marker);
  }

  lemma {:induction false} MarkerFrom(turns: seq<Turn>, outcomes: seq<Status>, maxIterations: int, initOnly: bool,
                                      i: nat, firstRun: bool, marker: bool)
    ensures MarkerWritten(LoopFrom(turns, outcomes, maxIterations, initOnly, i, firstRun, marker), marker)
    decreases maxIterations - i
  {
    if i < maxIterations && i < |turns| && i < |outcomes| {
      Unfold(turns, outcomes, maxIterations, initOnly, i, firstRun, marker);
      var next := Step(turns[i], outcomes[i], firstRun, initOnly);
      if next.Go? {
        var marker' := MarkerAfter(turns[i], outcomes[i], firstRun, marker);
        MarkerFrom(turns, outcomes, maxIterations, initOnly, i + 1, next.firstRun, marker');
        MarkerPrepend(ModeOf(firstRun), outcomes[i], LoopFrom(turns, outcomes, maxIterations, initOnly, i + 1, next.firstRun, marker'),
                      marker, marker');
      }
    }
  }

  lemma {:induction false} MarkerCauseFrom(turns: seq<Turn>, outcomes: seq<Status>, maxIterations: int, initOnly: bool,
                                           i: nat, firstRun: bool, marker: bool)
    ensures MarkerExplained(LoopFrom(turns, outcomes, maxIterations, initOnly, i, firstRun, marker), turns, i, marker)
    decreases maxIterations - i
  {
    if i < maxIterations && i < |turns| && i < |outcomes| {
      Unfold(turns, outcomes, maxIterations, initOnly, i, firstRun, marker);
      var next := Step(turns[i], outcomes[i], firstRun, initOnly);
      var marker' := MarkerAfter(turns[i], outcomes[i], firstRun, marker);
      if next.Go? {
        MarkerCauseFrom(turns, outcomes, maxIterations, initOnly, i + 1, next.firstRun, marker');
        MarkerCausePrepend(ModeOf(firstRun), outcomes[i], LoopFrom(turns, outcomes, maxIterations, initOnly, i + 1, next.firstRun, marker'),
                           turns, i, marker, marker');
      } else {
        var r := LoopFrom(turns, outcomes, maxIterations, initOnly, i, firstRun, marker);
        if r.marker && !marker {
          assert MarkerCause(r, turns, i, 0);
        }
      }
    }
  }

  /**
    The marker file, once there, stays; a successful initializer session
    leaves it written; and it appears only that way or through a session's
    own tools.
   */
  lemma MarkerOutcome(turns: seq<Turn>, maxIterations: int, initOnly: bool, skipInit: bool, marker: bool)
    requires maxIterations <= |turns|
    ensures MarkerWritten(Loop(turns, maxIterations, initOnly, skipInit, marker), marker)
    ensures MarkerExplained(Loop(turns, maxIterations, initOnly, skipInit, marker), turns, 0, marker)
  {
    MarkerFrom(turns, Outcomes(turns), maxIterations, initOnly, 0, !marker && !skipInit, marker);
    MarkerCauseFrom(turns, Outcomes(turns), maxIterations, initOnly, 0, !marker && !skipInit, marker);
  }

  lemma {:induction false} InitOnlyFrom(turns: seq<Turn>, outcomes: seq<Status>, maxIterations: int,
                                        i: nat, firstRun: bool, marker: bool)
    ensures StopsAfterInit(LoopFrom(turns, outcomes, maxIterations, true, i, firstRun, marker))
    decreases maxIterations - i
  {
    if i < maxIterations && i < |turns| && i < |outcomes| {
      Unfold(turns, outcomes, maxIterations, true, i, firstRun, marker);
      var next := Step(turns[i], outcomes[i], firstRun, true);
      if next.Go? {
        var marker' := MarkerAfter(turns[i], outcomes[i], firstRun, marker);
        InitOnlyFrom(turns, outcomes, maxIterations, i + 1, next.firstRun, marker');
        InitOnlyPrepend(ModeOf(firstRun), outcomes[i], LoopFrom(turns, outcomes, maxIterations, true, i + 1, next.firstRun, marker'));
      }
    }
  }

  /** With init_only, the loop ends normally right after the first successful initializer session. */
  lemma InitOnlyStops(turns: seq<Turn>, maxIterations: int, skipInit: bool, marker: bool)
    requires maxIterations <= |turns|
    ensures StopsAfterInit(Loop(turns, maxIterations, true, skipInit, marker))
  {
    InitOnlyFrom(turns, Outcomes(turns), maxIterations, 0, !marker && !skipInit, marker);
  }

  lemma {:induction false} CodingIgnoresInitOnlyFrom(turns: seq<Turn>, outcomes: seq<Status>, maxIterations: int,
                                                     i: nat, marker: bool)
    ensures LoopFrom(turns, outcomes, maxIterations, true, i, false, marker) ==
            LoopFrom(turns, outcomes, maxIterations, false, i, false, marker)
    decreases maxIterations - i
  {
    if i < maxIterations && i < |turns| && i < |outcomes| {
      Unfold(turns, outcomes, maxIterations, true, i, false, marker);
      Unfold(turns, outcomes, maxIterations, false, i, false, marker);
      if Step(turns[i], outcomes[i], false, true).Go? {
        CodingIgnoresInitOnlyFrom(turns, outcomes, maxIterations, i + 1, MarkerAfter(turns[i], outcomes[i], false, marker));
      }
    }
  }

  /**
    init_only matters only in first-run mode: when the marker file exists
    at the start (or coding mode is forced) the loop runs exactly as
    without it.
   */
  lemma InitOnlyIgnoredWhenInitialized(turns: seq<Turn>, maxIterations: int, skipInit: bool, marker: bool)
    requires maxIterations <= |turns|
    requires marker || skipInit
    ensures Loop(turns, maxIterations, true, skipInit, marker) == Loop(turns, maxIterations, false, skipInit, marker)
  {
    CodingIgnoresInitOnlyFrom(turns, Outcomes(turns), maxIterations, 0, marker);
  }
}
