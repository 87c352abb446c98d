/**
  The bash command gate of agent/security.py: a deny-by-default classifier
  that every shell command the agent wants to run goes through. A command is
  refused when it is blank, when it contains one of the blocked fragments
  (compared case-insensitively), when no program name can be read from it,
  or when that program is not on the allowlist.
 */
module Security {
  import opened Wrappers
  import opened PyStr

  /** ALLOWED_COMMANDS, in the order the source lists them. */
  const AllowedCommandList: seq<string> := [
    // file operations
    "ls", "cat", "head", "tail", "wc", "grep", "find", "cp", "mkdir", "chmod",
    "pwd", "tree", "diff",
    // Node.js / npm
    "npm", "node", "npx", "tsx",
    // git
    "git",
    // process management
    "ps", "lsof", "pkill", "sleep",
    // network
    "curl",
    // TypeScript
    "tsc",
    // testing
    "jest", "vitest",
    // build tools
    "esbuild", "vite"
  ]

  /** The allowlist: program names, matched exactly and case-sensitively. */
  const AllowedCommands: set<string> := set c | c in AllowedCommandList

  /** BLOCKED_PATTERNS, in list order: the first one found is reported. */
  const BlockedPatterns: seq<string> := [
    "rm -rf /",
    "rm -rf ~",
    "rm -rf /*",
    "> /dev/",
    "| rm",
    "; rm",
    "&& rm -rf",
    "sudo",
    "chmod 777",
    "curl | bash",
    "curl | sh",
    "wget | bash",
    "wget | sh",
    "eval",
    "$(curl",
    "$(wget",
    "mkfs",
    "dd if=",
    ":(){",
    ">/dev/sda",
    ">/dev/null 2>&1 &"
  ]

  /** The gate's answer: whether the command may run, and why not. */
  datatype Decision = Decision(allowed: bool, reason: string)

  // ---------------------------------------------------------------------
  // get_command_name
  // ---------------------------------------------------------------------

  /** A leading `NAME=value` token, which the program-name search skips. */
  predicate IsAssignment(part: string) {
    '=' in part && !(|part| > 0 && part[0] == '-')
  }

  /** The first token that is not an assignment, if any. */
  function FirstProgramToken(parts: seq<string>): (r: Option<string>)
    ensures r.Some? ==> r.value in parts
    ensures r.Some? ==> exists k | 0 <= k < |parts| :: parts[k] == r.value && !IsAssignment(parts[k])
                          && forall j | 0 <= j < k :: IsAssignment(parts[j])
    ensures r.None? <==> forall p | p in parts :: IsAssignment(p)
  {
    if |parts| == 0 then None
    else if !IsAssignment(parts[0]) then Some(parts[0])
    else
      var r := FirstProgramToken(parts[1..]);
      assert r.Some? ==> exists k | 0 <= k < |parts| :: parts[k] == r.value && !IsAssignment(parts[k])
                           && forall j | 0 <= j < k :: IsAssignment(parts[j]) by {
        if r.Some? {
          var k :| 0 <= k < |parts[1..]| && parts[1..][k] == r.value && !IsAssignment(parts[1..][k])
                   && forall j | 0 <= j < k :: IsAssignment(parts[1..][j]);
          assert forall j | 1 <= j < k + 1 :: parts[j] == parts[1..][j - 1];
        }
      }
      r
  }

  /**
    get_command_name: the last `/`-separated piece of the first
    non-assignment token, or "" when every token is an assignment.
   */
  function GetCommandName(command: string): (name: string)
    ensures '/' !in name
  {
    match FirstProgramToken(Split(Strip(command)))
    case Some(cmd) => LastPiece(cmd, '/')
    case None => ""
  }

  // ---------------------------------------------------------------------
  // contains_blocked_pattern
  // ---------------------------------------------------------------------

  /** The first of `patterns`, in order, whose lower-case form occurs in `lowered`. */
  function FirstBlockedPattern(lowered: string, patterns: seq<string>): (r: Option<string>)
    ensures r.Some? ==> exists k | 0 <= k < |patterns| :: FirstFoundAt(lowered, patterns, k) && patterns[k] == r.value
    ensures r.None? <==> forall p | p in patterns :: !Contains(lowered, Lower(p))
  {
    if |patterns| == 0 then None
    else if Contains(lowered, Lower(patterns[0])) then
      assert FirstFoundAt(lowered, patterns, 0);
      Some(patterns[0])
    else
      var r := FirstBlockedPattern(lowered, patterns[1..]);
      assert r.Some? ==> exists k | 0 <= k < |patterns| :: FirstFoundAt(lowered, patterns, k) && patterns[k] == r.value by {
        if r.Some? {
          var k :| 0 <= k < |patterns[1..]| && FirstFoundAt(lowered, patterns[1..], k) && patterns[1..][k] == r.value;
          assert FirstFoundAt(lowered, patterns[1..], k);
          assert forall j | 1 <= j < k + 1 :: patterns[j] == patterns[1..][j - 1];
          assert FirstFoundAt(lowered, patterns, k + 1);
        }
      }
      r
  }

  /** `patterns[k]` is the first pattern, in list order, whose lower-case form occurs in `lowered`. */
  predicate FirstFoundAt(lowered: string, patterns: seq<string>, k: int) {
    0 <= k < |patterns| && Contains(lowered, Lower(patterns[k]))
    && forall j | 0 <= j < k :: !Contains(lowered, Lower(patterns[j]))
  }

  /**
    contains_blocked_pattern against the list `patterns`: (True, a message
    naming the first pattern found) or (False, "").
   */
  function ScanPatterns(command: string, patterns: seq<string>): (r: (bool, string))
    ensures r.0 <==> exists p | p in patterns :: Contains(Lower(command), Lower(p))
    ensures r.0 ==> exists k | 0 <= k < |patterns| ::
              FirstFoundAt(Lower(command), patterns, k) && r.1 == "Contains blocked pattern: " + patterns[k]
    ensures !r.0 ==> r.1 == ""
  {
    match FirstBlockedPattern(Lower(command), patterns)
    case Some(p) => (true, "Contains blocked pattern: " + p)
    case None => (false, "")
  }

  /** contains_blocked_pattern, against BLOCKED_PATTERNS. */
  function ContainsBlockedPattern(command: string): (r: (bool, string))
    ensures r.0 <==> exists p | p in BlockedPatterns :: Contains(Lower(command), Lower(p))
    ensures r.0 ==> exists k | 0 <= k < |BlockedPatterns| ::
              FirstFoundAt(Lower(command), BlockedPatterns, k) && r.1 == "Contains blocked pattern: " + BlockedPatterns[k]
    ensures !r.0 ==> r.1 == ""
  {
    ScanPatterns(command, BlockedPatterns)
  }

  // ---------------------------------------------------------------------
  // is_command_allowed
  // ---------------------------------------------------------------------

  /**
    is_command_allowed for a given allowlist and list of blocked patterns:
    the checks in the source's order. The lemmas below are stated at this
    level, so that they do not depend on the contents of the two lists.
   */
  function Gate(command: string, allowed: set<string>, patterns: seq<string>): (d: Decision)
    ensures d.allowed <==> d.reason == ""
    ensures d.allowed <==> !IsBlank(command) && FirstBlockedPattern(Lower(command), patterns).None?
                           && GetCommandName(command) != "" && GetCommandName(command) in allowed
  {
    if |command| == 0 || |Strip(command)| == 0 then
      StripEmptyIffBlank(command);
      Decision(false, "Empty command")
    else
      StripEmptyIffBlank(command);
      var (isBlocked, reason) := ScanPatterns(command, patterns);
      if isBlocked then Decision(false, reason)
      else
        var baseCmd := GetCommandName(command);
        if |baseCmd| == 0 then Decision(false, "Could not parse command")
        else if baseCmd in allowed then Decision(true, "")
        else Decision(false, "Command '" + baseCmd + "' is not in allowlist")
  }

  /**
    is_command_allowed: the gate with ALLOWED_COMMANDS and BLOCKED_PATTERNS.
    A command is allowed exactly when it is not blank, contains no blocked
    pattern and names a program on the allowlist.
   */
  function IsCommandAllowed(command: string): (d: Decision)
    ensures d.allowed <==> d.reason == ""
    ensures d.allowed <==> !IsBlank(command) && !ContainsBlockedPattern(command).0
                           && GetCommandName(command) in AllowedCommands
  {
    AllowlistNamesSomething();
    Gate(command, AllowedCommands, BlockedPatterns)
  }

  /** Every allowlisted name is non-empty. */
  lemma AllowlistNamesSomething()
    ensures "" !in AllowedCommands
  {
    assert forall c | c in AllowedCommandList :: |c| > 0;
  }

  // ---------------------------------------------------------------------
  // get_allowed_commands_list
  // ---------------------------------------------------------------------

  /** get_allowed_commands_list: sorted(ALLOWED_COMMANDS). */
  function GetAllowedCommandsList(): (r: seq<string>)
    ensures StrictlySorted(r)
    ensures forall c :: c in r <==> c in AllowedCommands
  {
    SortedDistinct(AllowedCommandList)
  }

  // ---------------------------------------------------------------------
  // Properties of the gate
  // ---------------------------------------------------------------------

  /** A command is refused as empty exactly when it is empty or all whitespace. */
  lemma EmptyCommandDenied(command: string, allowed: set<string>, patterns: seq<string>)
    ensures IsBlank(command) ==> Gate(command, allowed, patterns) == Decision(false, "Empty command")
    ensures Gate(command, allowed, patterns).reason == "Empty command" ==> IsBlank(command)
  {
    StripEmptyIffBlank(command);
    if !IsBlank(command) {
      var d := Gate(command, allowed, patterns);
      match FirstBlockedPattern(Lower(command), patterns)
      case Some(p) =>
        assert d.reason == "Contains blocked pattern: " + p;
        assert d.reason[0] == 'C';
      case None =>
        var name := GetCommandName(command);
        if name != "" && name !in allowed {
          assert d.reason == "Command '" + name + "' is not in allowlist";
          assert d.reason[0] == 'C';
        }
    }
  }

  /** The scan reports the pattern at `k` when it is the first in list order to occur. */
  lemma {:induction false} FirstBlockedPatternAt(lowered: string, patterns: seq<string>, k: int)
    requires 0 <= k < |patterns| && Contains(lowered, Lower(patterns[k]))
    requires forall j | 0 <= j < k :: !Contains(lowered, Lower(patterns[j]))
    ensures FirstBlockedPattern(lowered, patterns) == Some(patterns[k])
  {
    if k > 0 {
      assert !Contains(lowered, Lower(patterns[0]));
      FirstBlockedPatternAt(lowered, patterns[1..], k - 1);
    }
  }

  /**
    A non-blank command that contains a blocked pattern is refused, naming
    the first such pattern in list order, whatever program it runs.
   */
  lemma BlockedPatternWins(command: string, allowed: set<string>, patterns: seq<string>, k: int)
    requires !IsBlank(command)
    requires 0 <= k < |patterns| && Contains(Lower(command), Lower(patterns[k]))
    requires forall j | 0 <= j < k :: !Contains(Lower(command), Lower(patterns[j]))
    ensures Gate(command, allowed, patterns) == Decision(false, "Contains blocked pattern: " + patterns[k])
  {
    StripEmptyIffBlank(command);
    FirstBlockedPatternAt(Lower(command), patterns, k);
  }

  /**
    Past the blank and blocked-pattern checks, the program name alone
    decides: refused as unparsable when there is none, allowed exactly when
    it is listed, and otherwise refused as not on the allowlist.
   */
  lemma AllowlistDecides(command: string, allowed: set<string>, patterns: seq<string>)
    requires !IsBlank(command) && FirstBlockedPattern(Lower(command), patterns).None?
    ensures var name := GetCommandName(command);
      Gate(command, allowed, patterns) ==
        if name == "" then Decision(false, "Could not parse command")
        else if name in allowed then Decision(true, "")
        else Decision(false, "Command '" + name + "' is not in allowlist")
  {
    StripEmptyIffBlank(command);
  }

  /** The first non-assignment after a run of assignments is the program token. */
  lemma {:induction false} FirstProgramTokenAfter(env: seq<string>, tok: string, rest: seq<string>)
    requires forall t | t in env :: IsAssignment(t)
    requires !IsAssignment(tok)
    ensures FirstProgramToken(env + [tok] + rest) == Some(tok)
  {
    if |env| > 0 {
      assert env[0] in env;
      assert (env + [tok] + rest)[1..] == env[1..] + [tok] + rest;
      FirstProgramTokenAfter(env[1..], tok, rest);
    }
  }

  /**
    get_command_name skips the leading assignments and keeps the last
    path segment of the program token, however much whitespace surrounds
    the tokens ("NODE_ENV=test npm run" gives "npm", "/usr/bin/node
    script.js" gives "node"). `ws[i]` is the whitespace after the i-th token.
   */
  lemma CommandNameOf(lead: string, env: seq<string>, tok: string, rest: seq<string>, ws: seq<string>)
    requires IsBlank(lead) && |ws| == |env| + 1 + |rest| && Separators(ws)
    requires forall t | t in env + [tok] + rest :: IsToken(t)
    requires forall t | t in env :: IsAssignment(t)
    requires !IsAssignment(tok)
    ensures GetCommandName(lead + Spaced(env + [tok] + rest, ws)) == LastPiece(tok, '/')
  {
    SplitStrip(lead + Spaced(env + [tok] + rest, ws));
    SplitSpaced(lead, env + [tok] + rest, ws);
    FirstProgramTokenAfter(env, tok, rest);
  }

  /**
    No program name is found exactly when every token is an assignment or
    the program token ends with '/' ("dir/ x" names nothing).
   */
  lemma CommandNameEmpty(command: string)
    ensures GetCommandName(command) == "" <==>
      match FirstProgramToken(Split(command))
      case None => true
      case Some(t) => t[|t| - 1] == '/'
  {
    SplitStrip(command);
    match FirstProgramToken(Split(command))
    case None =>
    case Some(t) =>
      var r := LastPiece(t, '/');
      if |r| > 0 {
        assert r[|r| - 1] == t[|t| - 1];
      }
  }

  /**
    A command that passes the blank and blocked-pattern checks but names no
    program is refused as unparsable.
   */
  lemma UnparsableDenied(command: string, allowed: set<string>, patterns: seq<string>)
    requires !IsBlank(command) && FirstBlockedPattern(Lower(command), patterns).None?
    requires GetCommandName(command) == ""
    ensures Gate(command, allowed, patterns) == Decision(false, "Could not parse command")
  {
    AllowlistDecides(command, allowed, patterns);
  }

  /**
    A directory in front of the program token is dropped by
    get_command_name, and neither command is blank.
   */
  lemma PathPrefixKeepsName(lead: string, env: seq<string>, dir: string, prog: string, rest: seq<string>,
                            ws: seq<string>)
    requires IsBlank(lead) && |ws| == |env| + 1 + |rest| && Separators(ws)
    requires forall t | t in env + [prog] + rest :: IsToken(t)
    requires forall t | t in env :: IsAssignment(t)
    requires IsToken(dir) && dir[|dir| - 1] == '/' && '=' !in dir && '=' !in prog
    ensures GetCommandName(lead + Spaced(env + [dir + prog] + rest, ws))
         == GetCommandName(lead + Spaced(env + [prog] + rest, ws))
    ensures !IsBlank(lead + Spaced(env + [dir + prog] + rest, ws)) && !IsBlank(lead + Spaced(env + [prog] + rest, ws))
  {
    var plain, prefixed := lead + Spaced(env + [prog] + rest, ws), lead + Spaced(env + [dir + prog] + rest, ws);
    assert IsToken(dir + prog) by {
      assert prog in env + [prog] + rest;
    }
    assert forall t | t in env + [dir + prog] + rest :: t == dir + prog || t in env + [prog] + rest;
    assert '=' !in dir + prog;
    CommandNameOf(lead, env, prog, rest, ws);
    CommandNameOf(lead, env, dir + prog, rest, ws);
    LastPieceAfterSeparator(dir, prog, '/');
    SplitSpaced(lead, env + [prog] + rest, ws);
    SplitSpaced(lead, env + [dir + prog] + rest, ws);
    SplitEmptyIffBlank(plain);
    SplitEmptyIffBlank(prefixed);
  }

  /**
    Putting a directory in front of the program token does not change the
    decision, as long as neither the directory nor the program token holds
    an '=' and the blocked-pattern scan finds the same thing in both
    commands ("/usr/bin/node x.js" is decided like "node x.js").
   */
  lemma PathPrefixKeepsDecision(lead: string, env: seq<string>, dir: string, prog: string, rest: seq<string>,
                                ws: seq<string>, allowed: set<string>, patterns: seq<string>)
    requires IsBlank(lead) && |ws| == |env| + 1 + |rest| && Separators(ws)
    requires forall t | t in env + [prog] + rest :: IsToken(t)
    requires forall t | t in env :: IsAssignment(t)
    requires IsToken(dir) && dir[|dir| - 1] == '/' && '=' !in dir && '=' !in prog
    requires FirstBlockedPattern(Lower(lead + Spaced(env + [dir + prog] + rest, ws)), patterns)
          == FirstBlockedPattern(Lower(lead + Spaced(env + [prog] + rest, ws)), patterns)
    ensures Gate(lead + Spaced(env + [dir + prog] + rest, ws), allowed, patterns)
         == Gate(lead + Spaced(env + [prog] + rest, ws), allowed, patterns)
  {
    var plain, prefixed := lead + Spaced(env + [prog] + rest, ws), lead + Spaced(env + [dir + prog] + rest, ws);
    PathPrefixKeepsName(lead, env, dir, prog, rest, ws);
    StripEmptyIffBlank(plain);
    StripEmptyIffBlank(prefixed);
  }

  /** sorted() yields the one ascending, repeat-free listing of the allowlist. */
  lemma AllowedCommandsListUnique(r: seq<string>)
    requires StrictlySorted(r) && forall c :: c in r <==> c in AllowedCommands
    ensures GetAllowedCommandsList() == r
  {
    StrictlySortedUnique(GetAllowedCommandsList(), r);
  }
}
